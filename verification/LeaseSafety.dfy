/** Every interleaving of tool-call handlers, tool results and session shutdowns over one guard. */
module LeaseSafety {
  import opened Wrappers
  import opened Lease

  /** A tool-call handler. `exclusive` is set once the lease was upgraded, `released` once a release is
      tied to the lease; `epoch` counts the shutdowns completed before the handler started. */
  datatype Handler = Handler(id: string, mutates: bool, exclusive: bool, stage: Stage, released: Option<ReleaseId>,
      epoch: nat)

  /** A tool-result handler waiting for its outcome to be recorded. */
  datatype Result = Result(id: string, release: ReleaseId, waiting: bool)

  datatype Shutdown = NoShutdown | Visiting(visited: set<string>, awaited: Option<ReleaseId>,
      ok: bool) | Closing(ok: bool)

  /** The answer of the evidence store to an outcome: whether it was written, and whether the guard heard so. */
  datatype Ack = Ack(written: bool, heard: bool)

  datatype System = System(
    lease: LeaseState,
    handlers: seq<Handler>,
    results: seq<Result>,
    shutdown: Shutdown,
    issued: set<ReleaseId>,
    outcomes: set<ReleaseId>,
    epoch: nat)

  const Initial := System(Unleased, [], [], NoShutdown, {}, {}, 0)

  datatype Action =
    | Start(id: string, screening: Screening)
    | PlanArrives(k: nat, plan: PlanReply)
    | AdvanceArrives(k: nat, advance: AdvanceReply)
    | ChoiceArrives(k: nat, approved: bool)
    | ApprovalArrives(k: nat, recorded: bool)
    | ReadvanceArrives(k: nat, advance: AdvanceReply)
    | Throws(k: nat)
    | InterruptionArrives(k: nat, ack: Ack)
    | ResultComes(id: string)
    | ResultArrives(k: nat, ack: Ack)
    | ShutdownStarts
    | ShutdownVisits(id: string)
    | ShutdownArrives(ack: Ack)
    | ShutdownLoopEnds
    | ShutdownEnds(closed: bool)

  predicate InFlight(stage: Stage) {
    stage.Planning? || stage.Advancing? || stage.Choosing? || stage.Approving? || stage.Readvancing?
  }

  /** The store writes one outcome per release, and the guard hears only of what was written. */
  predicate Possible(s: System, release: ReleaseId, ack: Ack) {
    (ack.heard ==> ack.written) && (ack.written ==> release !in s.outcomes)
  }

  /** Releases are never issued twice. */
  predicate Issuable(s: System, reply: AdvanceReply) { reply.ReleasedAs? ==> reply.id !in s.issued }

  predicate Enabled(s: System, a: Action) {
    match a
    case Start(_, _) => true
    case PlanArrives(k, _) => k < |s.handlers| && s.handlers[k].stage.Planning?
    case AdvanceArrives(k, reply) => k < |s.handlers| && s.handlers[k].stage.Advancing? && Issuable(s, reply)
    case ChoiceArrives(k, _) => k < |s.handlers| && s.handlers[k].stage.Choosing?
    case ApprovalArrives(k, _) => k < |s.handlers| && s.handlers[k].stage.Approving?
    case ReadvanceArrives(k, reply) => k < |s.handlers| && s.handlers[k].stage.Readvancing? && Issuable(s, reply)
    case Throws(k) => k < |s.handlers| && InFlight(s.handlers[k].stage)
    case InterruptionArrives(k, ack) =>
      k < |s.handlers| && s.handlers[k].stage.Interrupting? && Possible(s, s.handlers[k].stage.release, ack)
    case ResultComes(_) => true
    case ResultArrives(k, ack) => k < |s.results| && s.results[k].waiting && Possible(s, s.results[k].release, ack)
    case ShutdownStarts => s.shutdown.NoShutdown?
    case ShutdownVisits(id) =>
      s.shutdown.Visiting? && s.shutdown.awaited.None? && id in s.lease.activeCalls && id !in s.shutdown.visited
    case ShutdownArrives(ack) => s.shutdown.Visiting? && s.shutdown.awaited.Some? &&
        Possible(s, s.shutdown.awaited.value, ack)
    case ShutdownLoopEnds => s.shutdown.Visiting? && s.shutdown.awaited.None? &&
        s.lease.activeCalls.Keys <= s.shutdown.visited
    case ShutdownEnds(_) => s.shutdown.Closing?
  }

  /** Handler k goes on to the given stage with the given lease. */
  function Moved(s: System, k: nat, next: (LeaseState, Stage)): System
    requires k < |s.handlers|
  {
    var h := s.handlers[k].(stage := next.1,
      released := if next.1.LetThrough? || next.1.Interrupting? then Some(next.1.release) else s.handlers[k].released);
    s.(lease := next.0, handlers := s.handlers[k := h])
  }

  function Issue(s: System, reply: AdvanceReply): System {
    if reply.ReleasedAs? then s.(issued := s.issued + {reply.id}) else s
  }

  function Written(s: System, release: ReleaseId, ack: Ack): System {
    if ack.written then s.(outcomes := s.outcomes + {release}) else s
  }

  function Apply(s: System, a: Action): System
    requires Enabled(s, a)
  {
    match a
    case Start(id, screening) =>
      var (lease, stage) := Begin(s.lease, id, screening);
      s.(lease := lease,
         handlers := s.handlers + [Handler(id, screening.Acceptable? &&
             screening.mutates, false, stage, None, s.epoch)])
    case PlanArrives(k, reply) =>
      var h := s.handlers[k];
      var after := Moved(s, k, OnPlan(s.lease, h.id, h.mutates, reply));
      if Exclusive(h.mutates, reply) && after.handlers[k].stage.Advancing?
      then after.(handlers := after.handlers[k := after.handlers[k].(exclusive := true)]) else after
    case AdvanceArrives(k, reply) => Moved(Issue(s, reply), k, OnAdvance(s.lease, s.handlers[k].id, reply))
    case ChoiceArrives(k, approved) => Moved(s, k, (s.lease, Approving(approved)))
    case ApprovalArrives(k, recorded) => Moved(s, k,
        OnApproval(s.lease, s.handlers[k].id, s.handlers[k].stage.approved, recorded))
    case ReadvanceArrives(k, reply) => Moved(Issue(s, reply), k, OnReadvance(s.lease, s.handlers[k].id, reply))
    case Throws(k) => Moved(s, k, Give(s.lease, s.handlers[k].id))
    case InterruptionArrives(k, ack) =>
      Moved(Written(s, s.handlers[k].stage.release, ack), k,
          (OnInterrupted(s.lease, s.handlers[k].id, ack.heard), Refused))
    case ResultComes(id) =>
      var (lease, release) := OnResult(s.lease, id);
      s.(lease := lease, results := if release.Some? then s.results + [Result(id, release.value, true)] else s.results)
    case ResultArrives(k, ack) =>
      Written(s, s.results[k].release, ack).(
        lease := OnInterrupted(s.lease, s.results[k].id, ack.heard),
        results := s.results[k := s.results[k].(waiting := false)])
    case ShutdownStarts => s.(lease := s.lease.(shuttingDown := true), shutdown := Visiting({}, None, true))
    case ShutdownVisits(id) =>
      s.(shutdown := Visiting(s.shutdown.visited + {id}, s.lease.activeCalls[id].release, s.shutdown.ok))
    case ShutdownArrives(ack) =>
      Written(s, s.shutdown.awaited.value,
          ack).(shutdown := Visiting(s.shutdown.visited, None, s.shutdown.ok && ack.heard))
    case ShutdownLoopEnds => s.(shutdown := Closing(s.shutdown.ok))
    case ShutdownEnds(closed) =>
      var reset := s.shutdown.ok && closed;
      s.(lease := OnShutdownEnd(s.lease, reset), shutdown := NoShutdown, epoch := if reset then s.epoch + 1
                                                                                  else s.epoch)
  }

  /** Some result handler still waits for the answer to this release's outcome. */
  predicate Awaited(results: seq<Result>, release: ReleaseId) {
    exists m :: 0 <= m < |results| && results[m].waiting && results[m].release == release
  }

  /** An answer still to come for the handler may touch the lease of its id. */
  predicate Pending(s: System, h: Handler) {
    InFlight(h.stage)
    || (h.released.Some? && h.released.value !in s.outcomes
        && (h.stage.Interrupting? || Awaited(s.results, h.released.value)))
  }

  /** No lease goes to an id for which an earlier call still has an answer to come. */
  predicate FreshId(s: System, a: Action) {
    a.Start? && Begin(s.lease, a.id, a.screening).1.Planning? ==>
      forall k :: 0 <= k < |s.handlers| && Pending(s, s.handlers[k]) ==> s.handlers[k].id != a.id
  }

  /** The states of a run: each action enabled where it is taken. */
  ghost predicate Run(states: seq<System>, actions: seq<Action>) {
    && |states| == |actions| + 1 && states[0] == Initial
    && forall i :: 0 <= i < |actions| ==>
        Enabled(states[i], actions[i]) && states[i + 1] == Apply(states[i], actions[i])
  }

  /** A run in which ids stay fresh. */
  ghost predicate FairRun(states: seq<System>, actions: seq<Action>) {
    Run(states, actions) && forall i :: 0 <= i < |actions| ==> FreshId(states[i], actions[i])
  }

  // ---- Invariants ---------------------------------------------------------------------------------

  /** The entry a handler's lease has while it belongs to the current epoch. */
  predicate Holds(s: System, h: Handler, release: Option<ReleaseId>) {
    h.id in s.lease.activeCalls && s.lease.activeCalls[h.id] == ActiveCall(h.mutates || h.exclusive, release)
  }

  /** What is known of one handler. */
  predicate Sane(s: System, h: Handler) {
    && h.epoch <= s.epoch
    && (InFlight(h.stage) ==> h.released.None? && (h.epoch == s.epoch ==> Holds(s, h, None)))
    && (h.stage.LetThrough? || h.stage.Interrupting? ==> h.released == Some(h.stage.release))
    && (h.released.Some? ==> h.released.value in s.issued)
    && (h.released.Some? && h.epoch == s.epoch && h.released.value !in s.outcomes ==> Holds(s, h, h.released))
    && (h.stage.LetThrough? && h.epoch < s.epoch ==> h.stage.release in s.outcomes)
    && (h.stage.Interrupting? && h.epoch == s.epoch ==> s.lease.shuttingDown)
    && (h.epoch < s.epoch && Pending(s, h) ==> h.id !in s.lease.activeCalls)
  }

  ghost predicate HandlersSane(s: System) { forall k :: 0 <= k < |s.handlers| ==> Sane(s, s.handlers[k]) }

  /** What is known of two handlers. */
  predicate Apart(s: System, h: Handler, g: Handler) {
    && (h.released.Some? && g.released.Some? ==> h.released != g.released)
    && (InFlight(h.stage) && InFlight(g.stage) && h.epoch == g.epoch == s.epoch ==> h.id != g.id)
  }

  ghost predicate HandlersApart(s: System) {
    forall k, l :: 0 <= k < l < |s.handlers| ==> Apart(s, s.handlers[k], s.handlers[l])
  }

  /** Every lease has the handler that took it. */
  predicate Owns(s: System, h: Handler, id: string)
    requires id in s.lease.activeCalls
  {
    h.id == id && h.epoch == s.epoch
    && (if s.lease.activeCalls[id].release.None? then InFlight(h.stage)
        else h.released == s.lease.activeCalls[id].release)
  }

  ghost predicate Owned(s: System) {
    forall id :: id in s.lease.activeCalls ==> exists k :: 0 <= k < |s.handlers| && Owns(s, s.handlers[k], id)
  }

  predicate Carries(h: Handler, r: Result) { h.id == r.id && h.released == Some(r.release) }

  predicate Known(handlers: seq<Handler>, r: Result) { exists k :: 0 <= k < |handlers| && Carries(handlers[k], r) }

  ghost predicate ResultsKnown(s: System) { forall r :: r in s.results ==> Known(s.handlers, r) }

  /** A shutdown that heard every answer so far leaves no visited call unsettled. */
  predicate Accounted(s: System, h: Handler) {
    h.stage.LetThrough? && h.epoch == s.epoch && h.stage.release !in s.outcomes ==>
      match s.shutdown
      case NoShutdown => true
      case Visiting(visited, awaited, ok) => ok ==> h.id !in visited || awaited == Some(h.stage.release)
      case Closing(ok) => !ok
  }

  ghost predicate ShutdownAccounted(s: System) {
    (!s.shutdown.NoShutdown? ==> s.lease.shuttingDown) &&
        forall k :: 0 <= k < |s.handlers| ==> Accounted(s, s.handlers[k])
  }

  ghost predicate Good(s: System) {
    Excluding(s.lease) && HandlersSane(s) && HandlersApart(s) && Owned(s) && ResultsKnown(s) && ShutdownAccounted(s)
  }

  // ---- Leaving the active calls ------------------------------------------------------------------------

  predicate SameCarrier(h: Handler, g: Handler) { g.id == h.id && (h.released.Some? ==> g.released == h.released) }

  lemma ResultsStay(s: System, t: System)
    requires ResultsKnown(s) && t.results == s.results && |t.handlers| >= |s.handlers|
    requires forall k :: 0 <= k < |s.handlers| ==> SameCarrier(s.handlers[k], t.handlers[k])
    ensures ResultsKnown(t)
  {
    forall r | r in t.results ensures Known(t.handlers, r) {
      var k :| 0 <= k < |s.handlers| && Carries(s.handlers[k], r);
      assert Carries(t.handlers[k], r);
    }
  }

  /** Outside one id, two leases agree. */
  ghost predicate AgreeOutside(a: LeaseState, b: LeaseState, id: string) {
    a.shuttingDown == b.shuttingDown
    && forall other :: other != id ==>
      (other in a.activeCalls <==> other in b.activeCalls)
      && (other in a.activeCalls ==> a.activeCalls[other] == b.activeCalls[other])
  }

  /** An in-flight handler moves on, touching no lease but its own. */
  ghost predicate OwnMove(s: System, t: System, k: nat)
    requires k < |s.handlers|
  {
    && t == s.(lease := t.lease, handlers := t.handlers, issued := t.issued) && s.issued <= t.issued
    && |t.handlers| == |s.handlers| && t.handlers == s.handlers[k := t.handlers[k]]
    && t.handlers[k].id == s.handlers[k].id && t.handlers[k].epoch == s.handlers[k].epoch
    && (t.handlers[k].released.Some? ==> t.handlers[k].released.value !in s.issued)
    && AgreeOutside(s.lease, t.lease, s.handlers[k].id)
    && (s.handlers[k].id in t.lease.activeCalls ==> s.handlers[k].id in s.lease.activeCalls)
  }

  /** A handler is unharmed by what another one in flight does to its own lease. */
  lemma BystanderStays(s: System, t: System, k: nat, g: Handler)
    requires k < |s.handlers| && InFlight(s.handlers[k].stage) && OwnMove(s, t, k)
    requires Sane(s, s.handlers[k]) && Sane(s, g) && Accounted(s, g)
    requires Apart(s, s.handlers[k], g) || Apart(s, g, s.handlers[k])
    ensures Sane(t, g) && Accounted(t, g)
  {}

  lemma MovedStaysApart(s: System, t: System, k: nat, g: Handler)
    requires k < |s.handlers| && InFlight(s.handlers[k].stage) && OwnMove(s, t, k) && Sane(s, g)
    requires Apart(s, s.handlers[k], g) || Apart(s, g, s.handlers[k])
    ensures Apart(t, t.handlers[k], g) && Apart(t, g, t.handlers[k])
  {}

  lemma OwnMoveKeepsOwned(s: System, t: System, k: nat)
    requires Owned(s) && k < |s.handlers| && OwnMove(s, t, k)
    requires s.handlers[k].id in t.lease.activeCalls ==> Owns(t, t.handlers[k], s.handlers[k].id)
    ensures Owned(t)
  {
    forall id | id in t.lease.activeCalls ensures exists l :: 0 <= l < |t.handlers| && Owns(t, t.handlers[l], id) {
      if id == s.handlers[k].id {
        assert Owns(t, t.handlers[k], id);
      } else {
        var l :| 0 <= l < |s.handlers| && Owns(s, s.handlers[l], id);
        assert Owns(t, t.handlers[l], id);
      }
    }
  }

  lemma OwnMoveKeepsGood(s: System, t: System, k: nat)
    requires Good(s) && k < |s.handlers| && InFlight(s.handlers[k].stage) && OwnMove(s, t, k)
    requires Excluding(t.lease) && Sane(t, t.handlers[k]) && Accounted(t, t.handlers[k])
    requires s.handlers[k].id in t.lease.activeCalls ==> Owns(t, t.handlers[k], s.handlers[k].id)
    ensures Good(t)
  {
    assert t.lease.shuttingDown == s.lease.shuttingDown && t.results == s.results;
    assert s.handlers[k].released.None? by { assert Sane(s, s.handlers[k]); }
    OwnMoveKeepsOwned(s, t, k);
    assert forall l :: 0 <= l < |t.handlers| && l != k ==> t.handlers[l] == s.handlers[l];
    ResultsStay(s, t);
    assert t.epoch == s.epoch;
    hide Excluding, Sane, Accounted, Apart, AgreeOutside, Owned, Owns, OwnMove, ResultsKnown;
    forall l | 0 <= l < |t.handlers| ensures Sane(t, t.handlers[l]) && Accounted(t, t.handlers[l]) {
      if l < k { assert Apart(s, s.handlers[l], s.handlers[k]); BystanderStays(s, t, k, s.handlers[l]); }
      if k < l { assert Apart(s, s.handlers[k], s.handlers[l]); BystanderStays(s, t, k, s.handlers[l]); }
    }
    forall l, m | 0 <= l < m < |t.handlers| ensures Apart(t, t.handlers[l], t.handlers[m]) {
      assert Apart(s, s.handlers[l], s.handlers[m]);
      if l == k {
        MovedStaysApart(s, t, k, s.handlers[m]);
      } else if m == k {
        MovedStaysApart(s, t, k, s.handlers[l]);
      } else {
        StaysApart(s, t, s.handlers[l], s.handlers[m]);
      }
    }
  }

  lemma StaysApart(s: System, t: System, h: Handler, g: Handler)
    requires Apart(s, h, g) && t.epoch == s.epoch
    ensures Apart(t, h, g)
  {}

  // ---- Handlers in flight ----------------------------------------------------------------------------

  /** Handler k gives its lease up without a release. */
  lemma GivingUp(s: System, k: nat)
    requires Good(s) && k < |s.handlers| && InFlight(s.handlers[k].stage)
    ensures Good(Moved(s, k, Give(s.lease, s.handlers[k].id)))
  {
    RemovingKeepsExclusion(s.lease, s.handlers[k].id);
    assert Sane(s, s.handlers[k]);
    OwnMoveKeepsGood(s, Moved(s, k, Give(s.lease, s.handlers[k].id)), k);
  }

  lemma Waiting(s: System, k: nat, stage: Stage)
    requires Good(s) && k < |s.handlers| && InFlight(s.handlers[k].stage) && InFlight(stage)
    ensures Good(Moved(s, k, (s.lease, stage)))
  {
    assert Sane(s, s.handlers[k]);
    OwnMoveKeepsGood(s, Moved(s, k, (s.lease, stage)), k);
  }

  lemma PlanKeepsGood(s: System, k: nat, reply: PlanReply)
    requires Good(s) && Enabled(s, PlanArrives(k, reply))
    ensures Good(Apply(s, PlanArrives(k, reply)))
  {
    var h := s.handlers[k];
    var t := Apply(s, PlanArrives(k, reply));
    if OnPlan(s.lease, h.id, h.mutates, reply) == Give(s.lease, h.id) {
      GivingUp(s, k);
    } else if !Exclusive(h.mutates, reply) {
      Waiting(s, k, Advancing);
    } else {
      assert Sane(s, h);
        PlanKeepsExclusion(s.lease, h.id, h.mutates, reply);
      OwnMoveKeepsGood(s, t, k);
    }
  }

  /** A fresh release is tied to the lease of its handler, or to none. */
  lemma Finishing(s: System, k: nat, release: ReleaseId)
    requires Good(s) && k < |s.handlers| && InFlight(s.handlers[k].stage) && release !in s.issued
    ensures Good(Moved(s.(issued := s.issued + {release}), k, Finish(s.lease, s.handlers[k].id, release)))
  {
    var t := Moved(s.(issued := s.issued + {release}), k, Finish(s.lease, s.handlers[k].id, release));
    assert Sane(s, s.handlers[k]);
    FinishKeepsExclusion(s.lease, s.handlers[k].id, release);
    OwnMoveKeepsGood(s, t, k);
  }

  /** A handler is unharmed by a newcomer, which takes at most a lease nobody has. */
  lemma NewcomerKeeps(s: System, id: string, screening: Screening, g: Handler)
    requires Sane(s, g) && Accounted(s, g)
    requires (Begin(s.lease, id, screening).1.Planning? && Pending(s, g) ==> g.id != id)
    ensures var t := Apply(s, Start(id, screening));
        Sane(t, g) && Accounted(t, g) && Apart(t, g, t.handlers[|s.handlers|])
  {}

  lemma StartKeepsGood(s: System, id: string, screening: Screening)
    requires Good(s) && FreshId(s, Start(id, screening))
    ensures Good(Apply(s, Start(id, screening)))
  {
    hide Apply, Excluding, Sane, Accounted, Apart, Owned, ResultsKnown, Begin, Pending;
    var t := Apply(s, Start(id, screening));
    var n := |s.handlers|;
    NewcomerKeepsExclusion(s, id, screening);
    NewcomerIsSane(s, id, screening);
    NewcomerKeepsOwned(s, id, screening);
    NewcomerKeepsResults(s, id, screening);
    forall l | 0 <= l < n
      ensures Sane(t, t.handlers[l]) && Accounted(t, t.handlers[l]) && Apart(t, t.handlers[l], t.handlers[n])
    {
      assert Sane(s, s.handlers[l]) && Accounted(s, s.handlers[l]);
      NewcomerKeeps(s, id, screening, s.handlers[l]);
    }
    forall l, m | 0 <= l < m < n ensures Apart(t, t.handlers[l], t.handlers[m]) {
      assert Apart(s, s.handlers[l], s.handlers[m]);
      StaysApart(s, t, s.handlers[l], s.handlers[m]);
    }
  }

  lemma NewcomerKeepsExclusion(s: System, id: string, screening: Screening)
    requires Excluding(s.lease)
    ensures Excluding(Apply(s, Start(id, screening)).lease)
  {
    BeginKeepsExclusion(s.lease, id, screening);
    hide Excluding, Begin;
  }

  lemma NewcomerIsSane(s: System, id: string, screening: Screening)
    ensures var t := Apply(s, Start(id, screening));
      var n := |s.handlers|;
      && |t.handlers| == n + 1 && Sane(t, t.handlers[n]) && Accounted(t, t.handlers[n])
      && t.lease.shuttingDown == s.lease.shuttingDown && t.shutdown == s.shutdown && t.epoch == s.epoch
      && forall l :: 0 <= l < n ==> t.handlers[l] == s.handlers[l]
  {}

  lemma NewcomerKeepsResults(s: System, id: string, screening: Screening)
    requires ResultsKnown(s)
    ensures ResultsKnown(Apply(s, Start(id, screening)))
  {
    ResultsStay(s, Apply(s, Start(id, screening)));
  }

  lemma NewcomerKeepsOwned(s: System, id: string, screening: Screening)
    requires Owned(s)
    ensures Owned(Apply(s, Start(id, screening)))
  {
    var t := Apply(s, Start(id, screening));
    var n := |s.handlers|;
    forall other | other in t.lease.activeCalls
      ensures exists l :: 0 <= l < |t.handlers| && Owns(t, t.handlers[l], other)
    {
      if other in s.lease.activeCalls {
        var l :| 0 <= l < n && Owns(s, s.handlers[l], other);
        assert Owns(t, t.handlers[l], other);
      } else {
        assert Owns(t, t.handlers[n], other);
      }
    }
  }

  // ---- Outcomes ------------------------------------------------------------------------------------------

  /** An outcome for the release of handler k was offered; the lease goes only if the guard heard it was written. */
  ghost predicate OutcomeMove(s: System, t: System, k: nat)
    requires k < |s.handlers|
  {
    var h := s.handlers[k];
    && h.released.Some?
    && t == s.(lease := t.lease, handlers := t.handlers, results := t.results, outcomes := t.outcomes)
    && (t.handlers == s.handlers || t.handlers == s.handlers[k := h.(stage := Refused)])
    && (t.outcomes == s.outcomes || t.outcomes == s.outcomes + {h.released.value})
    && (forall release :: Awaited(t.results, release) ==> Awaited(s.results, release))
    && (t.lease == s.lease.(concurrencyPoisoned := true)
        || (Pending(s, h) && h.released.value !in s.outcomes && h.released.value in t.outcomes &&
            t.lease == RemoveActiveCall(s.lease, h.id)))
  }

  lemma OutcomeKeepsHandler(s: System, t: System, k: nat, g: Handler)
    requires Good(s) && k < |s.handlers| && OutcomeMove(s, t, k) && Sane(s, g) && Accounted(s, g)
    requires Apart(s, s.handlers[k], g) || Apart(s, g, s.handlers[k])
    ensures Sane(t, g) && Accounted(t, g)
  {
    assert Sane(s, s.handlers[k]);
  }

  lemma OutcomeKeepsCarrier(s: System, t: System, k: nat)
    requires Good(s) && k < |s.handlers| && OutcomeMove(s, t, k)
    ensures Sane(t, t.handlers[k]) && Accounted(t, t.handlers[k])
  {
    assert Sane(s, s.handlers[k]) && Accounted(s, s.handlers[k]);
  }

  lemma OutcomeKeepsOwned(s: System, t: System, k: nat)
    requires Good(s) && k < |s.handlers| && OutcomeMove(s, t, k)
    ensures Owned(t)
  {
    forall id | id in t.lease.activeCalls ensures exists l :: 0 <= l < |t.handlers| && Owns(t, t.handlers[l], id) {
      var l :| 0 <= l < |s.handlers| && Owns(s, s.handlers[l], id);
      assert Sane(s, s.handlers[l]);
      assert Owns(t, t.handlers[l], id);
    }
  }

  lemma OutcomeKeepsGood(s: System, t: System, k: nat)
    requires Good(s) && k < |s.handlers| && OutcomeMove(s, t, k)
    requires (forall r :: r in t.results ==> Known(s.handlers, r))
    ensures Good(t)
  {
    RemovingKeepsExclusion(s.lease, s.handlers[k].id);
    OutcomeKeepsOwned(s, t, k);
    OutcomeKeepsCarrier(s, t, k);
    assert |t.handlers| == |s.handlers| &&
        forall l :: 0 <= l < |t.handlers| && l != k ==> t.handlers[l] == s.handlers[l];
    ResultsStay(s.(results := t.results), t);
    assert t.epoch == s.epoch && t.lease.shuttingDown == s.lease.shuttingDown && t.shutdown == s.shutdown;
    assert !InFlight(t.handlers[k].stage) && !InFlight(s.handlers[k].stage) by { assert Sane(s, s.handlers[k]); }
    hide Sane, Accounted, Owned, Owns, OutcomeMove, ResultsKnown, Excluding;
    forall l | 0 <= l < |t.handlers| && l != k ensures Sane(t, t.handlers[l]) && Accounted(t, t.handlers[l]) {
      assert Apart(s, s.handlers[if l < k then l else k], s.handlers[if l < k then k else l]);
      OutcomeKeepsHandler(s, t, k, s.handlers[l]);
    }
    forall l, m | 0 <= l < m < |t.handlers| ensures Apart(t, t.handlers[l], t.handlers[m]) {
      assert Apart(s, s.handlers[l], s.handlers[m]);
      CarrierStaysApart(s, t, k, l, m);
    }
  }

  lemma CarrierStaysApart(s: System, t: System, k: nat, l: nat, m: nat)
    requires k < |s.handlers| && OutcomeMove(s, t, k) && l < m < |s.handlers| && Apart(s, s.handlers[l], s.handlers[m])
    ensures Apart(t, t.handlers[l], t.handlers[m])
  {}

  lemma InterruptionKeepsGood(s: System, k: nat, ack: Ack)
    requires Good(s) && Enabled(s, InterruptionArrives(k, ack))
    ensures Good(Apply(s, InterruptionArrives(k, ack)))
  {
    assert Sane(s, s.handlers[k]);
    OutcomeKeepsGood(s, Apply(s, InterruptionArrives(k, ack)), k);
  }

  lemma ResultKeepsGood(s: System, m: nat, ack: Ack)
    requires Good(s) && Enabled(s, ResultArrives(m, ack))
    ensures Good(Apply(s, ResultArrives(m, ack)))
  {
    var t := Apply(s, ResultArrives(m, ack));
    assert s.results[m] in s.results;
    var k :| 0 <= k < |s.handlers| && Carries(s.handlers[k], s.results[m]);
    forall r | r in t.results ensures Known(s.handlers, r) {
      if r == t.results[m] { assert Carries(s.handlers[k], r); } else { assert r in s.results; }
    }
    OutcomeKeepsGood(s, t, k);
  }

  /** An incoming result names the release of the handler that owns the lease. */
  lemma ResultComesKeepsGood(s: System, id: string)
    requires Good(s)
    ensures Good(Apply(s, ResultComes(id)))
  {
    var t := Apply(s, ResultComes(id));
    forall r | r in t.results ensures Known(t.handlers, r) {
      if r !in s.results {
        var k :| 0 <= k < |s.handlers| && Owns(s, s.handlers[k], id);
        assert Carries(s.handlers[k], r);
      }
    }
    SameHandlersKeepGood(s, t);
  }

  /** Nothing about handlers or their leases changed. */
  lemma SameHandlersKeepGood(s: System, t: System)
    requires Good(s)
    requires t == s.(lease := t.lease, results := t.results, shutdown := t.shutdown, outcomes := t.outcomes)
    requires s.outcomes <= t.outcomes
    requires t.lease.activeCalls == s.lease.activeCalls && t.lease.activeMutatingCallId == s.lease.activeMutatingCallId
    requires s.lease.shuttingDown ==> t.lease.shuttingDown
    requires ResultsKnown(t) && (t.shutdown == s.shutdown || ShutdownAccounted(t))
    requires forall k :: 0 <= k < |s.handlers| && s.handlers[k].epoch < s.epoch && Pending(t, s.handlers[k]) ==>
        Pending(s, s.handlers[k])
    ensures Good(t)
  {
    forall k | 0 <= k < |t.handlers| ensures Sane(t, t.handlers[k]) { assert Sane(s, s.handlers[k]); }
    forall k | 0 <= k < |t.handlers|
      ensures t.shutdown == s.shutdown ==> Accounted(t, t.handlers[k]) { assert Accounted(s, s.handlers[k]); }
    forall k, l | 0 <= k < l < |t.handlers|
      ensures Apart(t, t.handlers[k], t.handlers[l]) { assert Apart(s, s.handlers[k], s.handlers[l]); }
    forall id | id in t.lease.activeCalls ensures exists l :: 0 <= l < |t.handlers| && Owns(t, t.handlers[l], id) {
      var l :| 0 <= l < |s.handlers| && Owns(s, s.handlers[l], id);
      assert Owns(t, t.handlers[l], id);
    }
  }

  // ---- Shutdown --------------------------------------------------------------------------------------------

  lemma ShutdownStepKeepsGood(s: System, a: Action)
    requires Good(s) && Enabled(s, a)
    requires (a.ShutdownStarts? || a.ShutdownVisits? || a.ShutdownArrives? || a.ShutdownLoopEnds?)
    ensures Good(Apply(s, a))
  {
    var t := Apply(s, a);
    forall k | 0 <= k < |t.handlers| ensures Accounted(t, t.handlers[k]) {
      assert Sane(s, s.handlers[k]) && Accounted(s, s.handlers[k]);
    }
    SameHandlersKeepGood(s, t);
  }

  lemma ShutdownEndKeepsGood(s: System, closed: bool)
    requires Good(s) && Enabled(s, ShutdownEnds(closed))
    ensures Good(Apply(s, ShutdownEnds(closed)))
  {
    var t := Apply(s, ShutdownEnds(closed));
    if s.shutdown.ok && closed {
      forall k | 0 <= k < |t.handlers| ensures Sane(t, t.handlers[k]) && Accounted(t, t.handlers[k]) {
        assert Sane(s, s.handlers[k]) && Accounted(s, s.handlers[k]);
      }
      forall k, l | 0 <= k < l < |t.handlers| ensures Apart(t, t.handlers[k], t.handlers[l]) {
        assert Apart(s, s.handlers[k], s.handlers[l]) && Sane(s, s.handlers[k]);
      }
      ResultsStay(s, t);
    } else {
      forall k | 0 <= k < |t.handlers| ensures Accounted(t, t.handlers[k]) {}
      SameHandlersKeepGood(s, t);
    }
  }

  // ---- Runs --------------------------------------------------------------------------------------------------

  lemma StepKeepsGood(s: System, a: Action)
    requires Good(s) && Enabled(s, a) && FreshId(s, a)
    ensures Good(Apply(s, a))
  {
    hide Good, OnPlan, Begin, Finish, OnInterrupted, OnResult, OnShutdownEnd, RemoveActiveCall;
    match a
    case Start(id, screening) => StartKeepsGood(s, id, screening);
    case PlanArrives(k, reply) => PlanKeepsGood(s, k, reply);
    case AdvanceArrives(k, reply) =>
      if reply.ReleasedAs? { Finishing(s, k, reply.id); } else { GivingUp(s, k); Waiting(s, k, Choosing); }
    case ChoiceArrives(k, approved) => Waiting(s, k, Approving(approved));
    case ApprovalArrives(k, recorded) => GivingUp(s, k); Waiting(s, k, Readvancing);
    case ReadvanceArrives(k, reply) => if reply.ReleasedAs? { Finishing(s, k, reply.id); } else { GivingUp(s, k); }
    case Throws(k) => GivingUp(s, k);
    case InterruptionArrives(k, ack) => InterruptionKeepsGood(s, k, ack);
    case ResultComes(id) => ResultComesKeepsGood(s, id);
    case ResultArrives(m, ack) => ResultKeepsGood(s, m, ack);
    case ShutdownStarts => ShutdownStepKeepsGood(s, a);
    case ShutdownVisits(id) => ShutdownStepKeepsGood(s, a);
    case ShutdownArrives(ack) => ShutdownStepKeepsGood(s, a);
    case ShutdownLoopEnds => ShutdownStepKeepsGood(s, a);
    case ShutdownEnds(closed) => ShutdownEndKeepsGood(s, closed);
  }

  lemma {:induction false} RunStaysGood(states: seq<System>, actions: seq<Action>, i: nat)
    requires FairRun(states, actions) && i <= |actions|
    ensures Good(states[i])
  {
    if i > 0 {
      hide Good, Apply, Enabled, FreshId;
      RunStaysGood(states, actions, i - 1);
      StepKeepsGood(states[i - 1], actions[i - 1]);
    }
  }

  /** The tool of a let-through call has no recorded outcome yet. */
  predicate Unsettled(s: System, h: Handler) { h.stage.LetThrough? && h.stage.release !in s.outcomes }

  /** Mutual exclusion: of two calls let through and unsettled, neither mutates nor had its lease upgraded. */
  lemma MutualExclusion(states: seq<System>, actions: seq<Action>, i: nat, k: nat, l: nat)
    requires FairRun(states, actions) && i <= |actions| && k < l < |states[i].handlers|
    requires Unsettled(states[i], states[i].handlers[k]) && Unsettled(states[i], states[i].handlers[l])
    ensures var h, g := states[i].handlers[k], states[i].handlers[l];
      h.id != g.id && !h.mutates && !h.exclusive && !g.mutates && !g.exclusive
  {
    RunStaysGood(states, actions, i);
    var s := states[i];
    var h, g := s.handlers[k], s.handlers[l];
    assert Sane(s, h) && Sane(s, g) && Apart(s, h, g);
    assert h.id in s.lease.activeCalls.Keys && g.id in s.lease.activeCalls.Keys;
  }

  // ---- Shutdown safety -----------------------------------------------------------------------------------------

  /** Handler k was not let through and the session began to end after it started. */
  predicate Doomed(s: System, k: nat) {
    k < |s.handlers| && !s.handlers[k].stage.LetThrough? && (s.handlers[k].epoch < s.epoch || s.lease.shuttingDown)
  }

  /** The flags outlive every step but the reset, and the reset starts a new epoch. */
  lemma SegmentsKeepFlags(s: LeaseState, id: string, screening: Screening, mutates: bool, plan: PlanReply,
                          advance: AdvanceReply,
                          approved: bool, recorded: bool)
    ensures KeepsFlags(s, Begin(s, id, screening).0) && KeepsFlags(s, Give(s, id).0)
    ensures KeepsFlags(s, OnPlan(s, id, mutates, plan).0)
    ensures KeepsFlags(s, OnAdvance(s, id, advance).0) && KeepsFlags(s, OnReadvance(s, id, advance).0)
    ensures KeepsFlags(s, OnApproval(s, id, approved, recorded).0)
    ensures KeepsFlags(s, OnInterrupted(s, id, recorded)) && KeepsFlags(s, OnResult(s, id).0)
  {
    if advance.ReleasedAs? { assert KeepsFlags(s, Finish(s, id, advance.id).0); }
  }

  predicate KeepsFlags(s: LeaseState, t: LeaseState) {
    t.shuttingDown == s.shuttingDown && (s.concurrencyPoisoned ==> t.concurrencyPoisoned)
  }

  lemma FlagsStay(s: System, a: Action)
    requires Enabled(s, a)
    ensures var t := Apply(s, a);
      && s.epoch <= t.epoch && |s.handlers| <= |t.handlers|
      && (t.epoch == s.epoch ==>
          (s.lease.shuttingDown ==> t.lease.shuttingDown) &&
          (s.lease.concurrencyPoisoned ==> t.lease.concurrencyPoisoned))
  {
    hide Begin, Give, OnPlan, OnAdvance, OnReadvance, OnApproval, OnInterrupted, OnResult;
    match a
    case Start(id, screening) => SegmentsKeepFlags(s.lease, id, screening, false, PlanRefuses, AdvanceRefuses, false,
        false);
    case PlanArrives(k, plan) =>
      SegmentsKeepFlags(s.lease, s.handlers[k].id, Unacceptable, s.handlers[k].mutates, plan, AdvanceRefuses, false,
          false);
    case AdvanceArrives(k, advance) =>
      SegmentsKeepFlags(s.lease, s.handlers[k].id, Unacceptable, false, PlanRefuses, advance, false, false);
    case ApprovalArrives(k, recorded) =>
      SegmentsKeepFlags(s.lease, s.handlers[k].id, Unacceptable, false, PlanRefuses, AdvanceRefuses,
          s.handlers[k].stage.approved, recorded);
    case ReadvanceArrives(k, advance) =>
      SegmentsKeepFlags(s.lease, s.handlers[k].id, Unacceptable, false, PlanRefuses, advance, false, false);
    case Throws(k) => SegmentsKeepFlags(s.lease, s.handlers[k].id, Unacceptable, false, PlanRefuses, AdvanceRefuses,
        false, false);
    case InterruptionArrives(k, ack) =>
      SegmentsKeepFlags(s.lease, s.handlers[k].id, Unacceptable, false, PlanRefuses, AdvanceRefuses, false, ack.heard);
    case ResultComes(id) => SegmentsKeepFlags(s.lease, id, Unacceptable, false, PlanRefuses, AdvanceRefuses, false,
        false);
    case ResultArrives(m, ack) =>
      SegmentsKeepFlags(s.lease, s.results[m].id, Unacceptable, false, PlanRefuses, AdvanceRefuses, false, ack.heard);
    case _ =>
  }

  lemma StageAfter(s: System, a: Action, k: nat)
    requires Enabled(s, a) && k < |s.handlers| && !s.handlers[k].stage.LetThrough?
    requires InFlight(s.handlers[k].stage) ==> s.lease.shuttingDown || s.handlers[k].id !in s.lease.activeCalls
    ensures var t := Apply(s, a);
      k < |t.handlers| && t.handlers[k].epoch == s.handlers[k].epoch && !t.handlers[k].stage.LetThrough?
  {
    match a
    case Start(_, _) =>
    case PlanArrives(_, _) =>
    case AdvanceArrives(_, _) =>
    case ReadvanceArrives(_, _) =>
    case _ =>
  }

  lemma StepKeepsDoomed(s: System, a: Action, k: nat)
    requires Good(s) && Enabled(s, a) && Doomed(s, k)
    ensures Doomed(Apply(s, a), k)
  {
    assert s.handlers[k].epoch <= s.epoch by { assert Sane(s, s.handlers[k]); }
    hide Good, Apply, Enabled;
    FlagsStay(s, a);
    StageAfter(s, a, k);
  }

  lemma FairStep(states: seq<System>, actions: seq<Action>, i: nat)
    requires FairRun(states, actions) && i < |actions|
    ensures |states| == |actions| + 1
    ensures Enabled(states[i], actions[i]) && FreshId(states[i], actions[i])
    ensures states[i + 1] == Apply(states[i], actions[i])
  {
    hide Enabled, FreshId, Apply;
  }

  lemma {:induction false} DoomedStays(states: seq<System>, actions: seq<Action>, i: nat, m: nat, k: nat)
    requires FairRun(states, actions) && i <= m <= |actions| && Doomed(states[i], k)
    ensures Doomed(states[m], k)
  {
    hide *;
    if i < m {
      RunStaysGood(states, actions, m - 1);
      FairStep(states, actions, m - 1);
      DoomedStays(states, actions, i, m - 1, k);
      StepKeepsDoomed(states[m - 1], actions[m - 1], k);
    }
  }

  /** A handler in flight when a shutdown begins never lets its tool run, not even after the flags are reset. */
  lemma ShutdownStopsHandlersInFlight(states: seq<System>, actions: seq<Action>, i: nat, m: nat, k: nat)
    requires FairRun(states, actions) && i < m <= |actions| && actions[i].ShutdownStarts?
    requires k < |states[i].handlers| && InFlight(states[i].handlers[k].stage)
    ensures k < |states[m].handlers| && !states[m].handlers[k].stage.LetThrough?
  {
    DoomedStays(states, actions, i + 1, m, k);
  }

  /** A shutdown that resets the flags leaves no lease, and no let-through call without a recorded outcome. */
  lemma ResetLeavesNothingUnsettled(states: seq<System>, actions: seq<Action>, i: nat, k: nat)
    requires FairRun(states, actions) && i < |actions| && actions[i].ShutdownEnds? && !states[i + 1].lease.shuttingDown
    requires k < |states[i + 1].handlers|
    ensures states[i + 1].lease == Unleased && !Unsettled(states[i + 1], states[i + 1].handlers[k])
  {
    hide Excluding;
    RunStaysGood(states, actions, i);
    assert Accounted(states[i], states[i].handlers[k]) && Sane(states[i], states[i].handlers[k]);
  }

  predicate Closed(s: LeaseState) { s.concurrencyPoisoned || s.shuttingDown }

  lemma ClosedStepTakesNoLease(s: System, a: Action)
    requires Enabled(s, a) && Closed(s.lease) && Apply(s, a).epoch == s.epoch
    ensures Closed(Apply(s, a).lease) && Apply(s, a).lease.activeCalls.Keys <= s.lease.activeCalls.Keys
  {
    FlagsStay(s, a);
    match a
    case Start(_, _) =>
    case PlanArrives(_, _) =>
    case AdvanceArrives(_, _) =>
    case ReadvanceArrives(_, _) =>
    case _ =>
  }

  /** From poisoning or the start of a shutdown until a shutdown resets the flags, no handler takes a lease,
      whether or not ids are reused. */
  lemma {:induction false} NoLeaseWhileClosed(states: seq<System>, actions: seq<Action>, i: nat, m: nat)
    requires Run(states, actions) && i <= m <= |actions| && Closed(states[i].lease)
    requires states[i].epoch == states[m].epoch
    ensures Closed(states[m].lease) && states[m].lease.activeCalls.Keys <= states[i].lease.activeCalls.Keys
  {
    hide Apply, Enabled, Closed;
    if i < m {
      StepsOf(states, actions, m - 1);
      EpochsGrow(states, actions, i, m - 1);
      FlagsStay(states[m - 1], actions[m - 1]);
      hide Run;
      NoLeaseWhileClosed(states, actions, i, m - 1);
      ClosedStepTakesNoLease(states[m - 1], actions[m - 1]);
    }
  }

  lemma StepsOf(states: seq<System>, actions: seq<Action>, i: nat)
    requires Run(states, actions) && i < |actions|
    ensures Enabled(states[i], actions[i]) && states[i + 1] == Apply(states[i], actions[i])
  {}

  lemma {:induction false} EpochsGrow(states: seq<System>, actions: seq<Action>, i: nat, m: nat)
    requires Run(states, actions) && i <= m <= |actions|
    ensures states[i].epoch <= states[m].epoch
  {
    hide Apply, Enabled;
    if i < m {
      EpochsGrow(states, actions, i, m - 1);
      StepsOf(states, actions, m - 1);
      FlagsStay(states[m - 1], actions[m - 1]);
    }
  }

  // ---- The assumption on ids is needed ---------------------------------------------------------------------------

  predicate Steps(s: System, a: Action, t: System) { Enabled(s, a) && t == Apply(s, a) }

  /** The call takes its lease, is planned beside reads, and is let through. */
  function CallActions(n: nat, id: string, mutates: bool, release: ReleaseId): seq<Action> {
    [Start(id, Acceptable(mutates)), PlanArrives(n, PlanStands(false, true)), AdvanceArrives(n, ReleasedAs(release))]
  }

  /** What a call let through at once leaves behind. */
  function AfterCall(s: System, id: string, mutates: bool, release: ReleaseId): System {
    s.(lease := s.lease.(activeCalls := s.lease.activeCalls[id := ActiveCall(mutates, Some(release))],
                         activeMutatingCallId := if mutates then Some(id) else s.lease.activeMutatingCallId),
       handlers := s.handlers + [Handler(id, mutates, false, LetThrough(release), Some(release), s.epoch)],
       issued := s.issued + {release})
  }

  lemma CallIsLetThrough(s: System, id: string, mutates: bool, release: ReleaseId) returns (s1: System, s2: System)
    requires Begin(s.lease, id, Acceptable(mutates)).1.Planning? && release !in s.issued
    ensures var acts := CallActions(|s.handlers|, id, mutates, release);
      && Steps(s, acts[0], s1) && Steps(s1, acts[1], s2) && Steps(s2, acts[2], AfterCall(s, id, mutates, release))
  {
    var n := |s.handlers|;
    var h := Handler(id, mutates, false, Planning, None, s.epoch);
    s1 := s.(lease := Begin(s.lease, id, Acceptable(mutates)).0, handlers := s.handlers + [h]);
    s2 := s1.(handlers := s.handlers + [h.(stage := Advancing)]);
    assert s1.handlers[n := h.(stage := Advancing)] == s2.handlers;
    var done := AfterCall(s, id, mutates, release);
    assert s2.handlers[n := done.handlers[n]] == done.handlers;
  }

  /** What every reachable state knows of a handler an answer is still to come for. */
  predicate Answerable(s: System, h: Handler) {
    && (h.stage.Interrupting? ==> h.released == Some(h.stage.release))
    && (h.released.Some? ==> h.released.value in s.issued)
    && forall r :: r in s.results && h.released == Some(r.release) ==> r.id == h.id
  }

  lemma GoodIsAnswerable(s: System, k: nat)
    requires Good(s) && k < |s.handlers|
    ensures Answerable(s, s.handlers[k])
  {
    var h := s.handlers[k];
    assert Sane(s, h);
    forall r | r in s.results && h.released == Some(r.release) ensures r.id == h.id {
      var l :| 0 <= l < |s.handlers| && Carries(s.handlers[l], r);
      assert l == k || Apart(s, s.handlers[if l < k then l else k], s.handlers[if l < k then k else l]);
    }
  }

  /** The answer an earlier call still waits for frees the lease its id has now. */
  lemma PendingAnswerFrees(s: System, k: nat) returns (a: Action)
    requires k < |s.handlers| && Pending(s, s.handlers[k]) && Answerable(s, s.handlers[k])
    ensures !a.Start? && Enabled(s, a)
    ensures var t := Apply(s, a);
      && t.lease == RemoveActiveCall(s.lease, s.handlers[k].id) && t.issued == s.issued
      && (forall r :: r in t.outcomes ==> r in s.outcomes || s.handlers[k].released == Some(r))
      && |t.handlers| == |s.handlers| && forall l :: 0 <= l < |s.handlers| && l != k ==> t.handlers[l] == s.handlers[l]
  {
    var h := s.handlers[k];
    if InFlight(h.stage) {
      a := Throws(k);
    } else if h.stage.Interrupting? {
      a := InterruptionArrives(k, Ack(true, true));
    } else {
      var m :| 0 <= m < |s.results| && s.results[m].waiting && s.results[m].release == h.released.value;
      a := ResultArrives(m, Ack(true, true));
      assert s.results[m] in s.results;
    }
  }

  lemma {:induction false} Unissued(releases: set<ReleaseId>) returns (release: ReleaseId)
    ensures forall r :: r in releases ==> r < release
    decreases releases
  {
    release := 0;
    if releases != {} {
      var r :| r in releases;
      var rest := releases - {r};
      release := Unissued(rest);
      assert forall x :: x in releases ==> x == r || x in rest;
      if release <= r { release := r + 1; }
    }
  }

  /** Two let-through calls of one id are unsettled, and the second mutates when it met no other lease. */
  predicate Collides(s: System, n: nat, id: string, mutates: bool) {
    && |s.handlers| == n + 2
    && s.handlers[n].id == s.handlers[n + 1].id == id && s.handlers[n + 1].mutates == mutates
    && Unsettled(s, s.handlers[n]) && Unsettled(s, s.handlers[n + 1])
  }

  lemma FreedForAnother(s: System, k: nat, id: string, mutates: bool, r0: ReleaseId, r1: ReleaseId)
    returns (answer: Action, t: System)
    requires k < |s.handlers| && s.handlers[k].id == id && Pending(s, s.handlers[k]) && Answerable(s, s.handlers[k])
    requires Begin(s.lease, id, Acceptable(mutates)).1.Planning? && Excluding(s.lease)
    requires r0 !in s.issued + s.outcomes && r1 !in s.issued + s.outcomes + {r0}
    ensures Steps(AfterCall(s, id, mutates, r0), answer, t) && !answer.Start?
    ensures Begin(t.lease, id, Acceptable(s.lease.activeCalls == map[])).1.Planning? && r1 !in t.issued
    ensures |t.handlers| == |s.handlers| + 1
    ensures Collides(AfterCall(t, id, s.lease.activeCalls == map[], r1), |s.handlers|, id, s.lease.activeCalls == map[])
  {
    var u := AfterCall(s, id, mutates, r0);
    assert s.handlers[k].released != Some(r0) && s.handlers[k].released != Some(r1);
    answer := PendingAnswerFrees(u, k);
    t := Apply(u, answer);
    hide Apply, Enabled, Pending, Answerable;
    assert t.handlers[|s.handlers|] == u.handlers[|s.handlers|];
    assert t.lease.activeCalls == s.lease.activeCalls;
  }

  function Before(s: System, more: seq<System>, i: nat): System
    requires i <= |more|
  {
    if i == 0 then s else more[i - 1]
  }

  /** The actions lead from s through the states. */
  ghost predicate Continues(s: System, more: seq<System>, rest: seq<Action>) {
    |more| == |rest| && forall i :: 0 <= i < |rest| ==> Steps(Before(s, more, i), rest[i], more[i])
  }

  lemma RunExtends(states: seq<System>, actions: seq<Action>, more: seq<System>, rest: seq<Action>)
    requires Run(states, actions) && Continues(states[|actions|], more, rest)
    ensures Run(states + more, actions + rest)
  {
    hide Apply, Enabled;
    var all, acts := states + more, actions + rest;
    forall i | 0 <= i < |acts| ensures Enabled(all[i], acts[i]) && all[i + 1] == Apply(all[i], acts[i]) {
      if i < |actions| {
        StepsBefore(states, actions, more, rest, i);
      } else {
        StepsAfter(states, actions, more, rest, i);
      }
    }
  }

  lemma StepsBefore(states: seq<System>, actions: seq<Action>, more: seq<System>, rest: seq<Action>, i: nat)
    requires Run(states, actions) && i < |actions|
    ensures var all, acts := states + more, actions + rest;
        Enabled(all[i], acts[i]) && all[i + 1] == Apply(all[i], acts[i])
  {
    StepsOf(states, actions, i);
    hide *;
  }

  lemma StepsAfter(states: seq<System>, actions: seq<Action>, more: seq<System>, rest: seq<Action>, i: nat)
    requires |states| == |actions| + 1 && |more| == |rest| && Continues(states[|actions|], more, rest)
    requires |actions| <= i < |actions| + |rest|
    ensures var all, acts := states + more, actions + rest;
        Enabled(all[i], acts[i]) && all[i + 1] == Apply(all[i], acts[i])
  {
    hide *;
    var j := i - |actions|;
    StepsOn(states[|actions|], more, rest, j);
    BeforeIsAt(states, more, j);
    assert (actions + rest)[i] == rest[j] && (states + more)[i + 1] == more[j];
  }

  lemma BeforeIsAt(states: seq<System>, more: seq<System>, j: nat)
    requires states != [] && j <= |more|
    ensures (states + more)[|states| - 1 + j] == Before(states[|states| - 1], more, j)
  {}

  lemma StepsOn(s: System, more: seq<System>, rest: seq<Action>, j: nat)
    requires Continues(s, more, rest) && j < |rest|
    ensures Enabled(Before(s, more, j), rest[j]) && more[j] == Apply(Before(s, more, j), rest[j])
  {
    hide Apply, Enabled;
    assert Steps(Before(s, more, j), rest[j], more[j]);
  }

  lemma ContinuesOver(s: System, more: seq<System>, rest: seq<Action>, a: Action, t: System)
    requires Continues(s, more, rest) && Steps(Before(s, more, |more|), a, t)
    ensures Continues(s, more + [t], rest + [a]) && Before(s, more + [t], |more + [t]|) == t
  {
    hide Steps;
    forall i | 0 <= i < |rest| + 1 ensures Steps(Before(s, more + [t], i), (rest + [a])[i], (more + [t])[i]) {
      if i < |rest| { assert Steps(Before(s, more, i), rest[i], more[i]); }
    }
  }

  lemma CallContinues(s: System, more: seq<System>, rest: seq<Action>, id: string, mutates: bool, release: ReleaseId)
    returns (more': seq<System>, rest': seq<Action>)
    requires Continues(s, more, rest)
    requires var now := Before(s, more, |more|);
        Begin(now.lease, id, Acceptable(mutates)).1.Planning? && release !in now.issued
    ensures var now := Before(s, more, |more|);
      && Continues(s, more', rest') && rest' == rest + CallActions(|now.handlers|, id, mutates, release)
      && Before(s, more', |more'|) == AfterCall(now, id, mutates, release)
  {
    hide Steps, Continues, AfterCall, Begin;
    var now := Before(s, more, |more|);
    var acts := CallActions(|now.handlers|, id, mutates, release);
    var s1, s2 := CallIsLetThrough(now, id, mutates, release);
    ContinuesOver(s, more, rest, acts[0], s1);
    ContinuesOver(s, more + [s1], rest + [acts[0]], acts[1], s2);
    ContinuesOver(s, more + [s1] + [s2], rest + [acts[0]] + [acts[1]], acts[2], AfterCall(now, id, mutates, release));
    more' := more + [s1] + [s2] + [AfterCall(now, id, mutates, release)];
    rest' := rest + [acts[0]] + [acts[1]] + [acts[2]];
  }

  /** A lease taken by an id that is not fresh can be freed under its call, and given to the id once more. */
  lemma ReuseCollides(s: System, k: nat, id: string, mutates: bool) returns (more: seq<System>, rest: seq<Action>)
    requires Good(s) && k < |s.handlers| && s.handlers[k].id == id && Pending(s, s.handlers[k])
    requires Begin(s.lease, id, Acceptable(mutates)).1.Planning?
    ensures Continues(s, more, rest) && |more| == |rest| > 0 && rest[0] == Start(id, Acceptable(mutates))
    ensures forall a :: a in rest && a.Start? ==> a.id == id
    ensures Collides(more[|more| - 1], |s.handlers|, id, s.lease.activeCalls == map[])
  {
    GoodIsAnswerable(s, k);
    var r0 := Unissued(s.issued + s.outcomes);
    var r1 := Unissued(s.issued + s.outcomes + {r0});
    var last := s.lease.activeCalls == map[];
    var answer, t := FreedForAnother(s, k, id, mutates, r0, r1);
    hide *;
    more, rest := TwoCalls(s, id, mutates, r0, answer, t, last, r1);
  }

  /** Two calls of one id with an answer between them. */
  lemma TwoCalls(s: System, id: string, mutates: bool, r0: ReleaseId, answer: Action, t: System, mutates': bool,
                 r1: ReleaseId)
    returns (more: seq<System>, rest: seq<Action>)
    requires Begin(s.lease, id, Acceptable(mutates)).1.Planning? && r0 !in s.issued
    requires Steps(AfterCall(s, id, mutates, r0), answer, t) && !answer.Start?
    requires Begin(t.lease, id, Acceptable(mutates')).1.Planning? && r1 !in t.issued
    ensures Continues(s, more, rest) && |more| == |rest| > 0 && rest[0] == Start(id, Acceptable(mutates))
    ensures forall a :: a in rest && a.Start? ==> a.id == id
    ensures more[|more| - 1] == AfterCall(t, id, mutates', r1)
  {
    assert Continues(s, [], []) && Before(s, [], 0) == s;
    CallStarts(|s.handlers|, id, mutates, r0);
    CallStarts(|t.handlers|, id, mutates', r1);
    hide Steps, Begin, AfterCall, CallActions, Continues;
    var first, acts := CallContinues(s, [], [], id, mutates, r0);
    hide Before;
    ContinuesOver(s, first, acts, answer, t);
    more, rest := CallContinues(s, first + [t], acts + [answer], id, mutates', r1);
    LastOf(s, more, rest);
  }

  lemma LastOf(s: System, more: seq<System>, rest: seq<Action>)
    requires Continues(s, more, rest) && rest != []
    ensures |more| == |rest| && more[|more| - 1] == Before(s, more, |more|)
  {}

  lemma CallStarts(n: nat, id: string, mutates: bool, release: ReleaseId)
    ensures var acts := CallActions(n, id, mutates, release);
      acts != [] && acts[0] == Start(id, Acceptable(mutates)) && forall a :: a in acts && a.Start? ==> a.id == id
  {}

  lemma StaleHandler(s: System, id: string, screening: Screening) returns (k: nat)
    requires !FreshId(s, Start(id, screening))
    ensures k < |s.handlers| && Pending(s, s.handlers[k]) && s.handlers[k].id == id
    ensures screening == Acceptable(screening.mutates) && Begin(s.lease, id, screening).1.Planning?
  {
    k :| 0 <= k < |s.handlers| && Pending(s, s.handlers[k]) && s.handlers[k].id == id;
  }

  /** The freshness condition is exact. Whenever a fair run may give a lease to an id that is not fresh, it goes on
      so that exclusion fails: no other id is started, and two let-through calls of this id are unsettled together,
      one of them a mutation unless other reads were active all along. */
  lemma StaleReuseBreaksExclusion(states: seq<System>, actions: seq<Action>, id: string, screening: Screening)
    returns (more: seq<System>, rest: seq<Action>)
    requires FairRun(states, actions) && !FreshId(states[|actions|], Start(id, screening))
    ensures Run(states + more, actions + rest) && rest != [] && rest[0] == Start(id, screening)
    ensures forall a :: a in rest && a.Start? ==> a.id == id
    ensures var s := states[|actions|];
      |more| == |rest| && Collides(more[|more| - 1], |s.handlers|, id, s.lease.activeCalls == map[])
  {
    var s := states[|actions|];
    RunStaysGood(states, actions, |actions|);
    assert Run(states, actions);
    hide *;
    var k := StaleHandler(s, id, screening);
    more, rest := ReuseCollides(s, k, id, screening.mutates);
    RunExtends(states, actions, more, rest);
  }

  // ---- Every clause of the assumption matters ----------------------------------------------------------------

  /** What a call can leave behind a completed shutdown. */
  datatype Remainder = ItselfInFlight | ItsInterruption | ItsResult

  function Reader(stage: Stage): Handler {
    Handler("a", false, false, stage, if stage == Planning || stage == Advancing then None else Some(0), 0)
  }

  function Reading(release: Option<ReleaseId>, poisoned: bool): LeaseState {
    LeaseState(map["a" := ActiveCall(false, release)], None, poisoned, true)
  }

  const InShutdown := System(Reading(None, false), [Reader(Advancing)], [], Visiting({"a"}, None, true), {}, {}, 0)

  const Opening := [Start("a", Acceptable(false)), PlanArrives(0, PlanStands(false, true)), ShutdownStarts,
      ShutdownVisits("a")]

  /** A read is planned, and a shutdown passes its lease while no release is tied to it. */
  lemma ShutdownPassesRead() returns (more: seq<System>)
    ensures Continues(Initial, more, Opening)
    ensures Before(Initial, more, 4) == InShutdown
  {
    var open := LeaseState(map["a" := ActiveCall(false, None)], None, false, false);
    var s1 := System(open, [Reader(Planning)], [], NoShutdown, {}, {}, 0);
    var s2 := System(open, [Reader(Advancing)], [], NoShutdown, {}, {}, 0);
    var s3 := System(Reading(None, false), [Reader(Advancing)], [], Visiting({}, None, true), {}, {}, 0);
    StartsAndPlans(s1, s2);
    BeginsAndVisits(s2, s3);
    assert Continues(Initial, [], []) && Before(Initial, [], 0) == Initial;
    hide *;
    var a1, a2, a3, a4 := Start("a", Acceptable(false)), PlanArrives(0, PlanStands(false, true)), ShutdownStarts,
        ShutdownVisits("a");
    ContinuesOver(Initial, [], [], a1, s1);
    ContinuesOver(Initial, [] + [s1], [] + [a1], a2, s2);
    ContinuesOver(Initial, [] + [s1] + [s2], [] + [a1] + [a2], a3, s3);
    ContinuesOver(Initial, [] + [s1] + [s2] + [s3], [] + [a1] + [a2] + [a3], a4, InShutdown);
    more := [] + [s1] + [s2] + [s3] + [InShutdown];
    OpeningIsLiteral(a1, a2, a3, a4);
  }

  lemma OpeningIsLiteral(a1: Action, a2: Action, a3: Action, a4: Action)
    requires a1 == Start("a", Acceptable(false)) && a2 == PlanArrives(0, PlanStands(false, true))
    requires a3 == ShutdownStarts && a4 == ShutdownVisits("a")
    ensures [] + [a1] + [a2] + [a3] + [a4] == Opening
  {}

  lemma StartsAndPlans(s1: System, s2: System)
    requires s1 == System(LeaseState(map["a" := ActiveCall(false, None)], None, false, false), [Reader(Planning)], [],
        NoShutdown, {}, {}, 0)
    requires s2 == s1.(handlers := [Reader(Advancing)])
    ensures Steps(Initial, Start("a", Acceptable(false)), s1) && Steps(s1, PlanArrives(0, PlanStands(false, true)), s2)
  {}

  lemma BeginsAndVisits(s2: System, s3: System)
    requires s2 == System(LeaseState(map["a" := ActiveCall(false, None)], None, false, false), [Reader(Advancing)], [],
        NoShutdown, {}, {}, 0)
    requires s3 == System(Reading(None, false), [Reader(Advancing)], [], Visiting({}, None, true), {}, {}, 0)
    ensures Steps(s2, ShutdownStarts, s3) && Steps(s3, ShutdownVisits("a"), InShutdown)
  {
    assert {} + {"a"} == {"a"};
  }

  function Reset(s: System): System { s.(lease := Unleased, shutdown := NoShutdown, epoch := s.epoch + 1) }

  lemma ShutdownEndsWell(now: System, closing: System)
    requires now.shutdown.Visiting? && now.shutdown.awaited.None? && now.shutdown.ok
    requires now.lease.activeCalls.Keys <= now.shutdown.visited
    requires closing == now.(shutdown := Closing(true))
    ensures Steps(now, ShutdownLoopEnds, closing) && Steps(closing, ShutdownEnds(true), Reset(now))
  {}

  /** The shutdown ends with every answer heard, and the guard starts afresh. */
  lemma ShutdownResets(s: System, more: seq<System>, rest: seq<Action>, now: System) returns (more': seq<System>)
    requires Continues(s, more, rest) && now == Before(s, more, |more|)
    requires now.shutdown.Visiting? && now.shutdown.awaited.None? && now.shutdown.ok
    requires now.lease.activeCalls.Keys <= now.shutdown.visited
    ensures Continues(s, more', rest + [ShutdownLoopEnds] + [ShutdownEnds(true)])
    ensures Before(s, more', |more'|) == Reset(now)
  {
    hide *;
    var closing := now.(shutdown := Closing(true));
    ShutdownEndsWell(now, closing);
    ContinuesOver(s, more, rest, ShutdownLoopEnds, closing);
    ContinuesOver(s, more + [closing], rest + [ShutdownLoopEnds], ShutdownEnds(true), Reset(now));
    more' := more + [closing] + [Reset(now)];
  }

  const Interrupted := InShutdown.(lease := Reading(Some(0), false), handlers := [Reader(Interrupting(0))],
      issued := {0})

  const Answerless := InShutdown.(lease := Reading(Some(0), true), handlers := [Reader(Refused)],
      results := [Result("a", 0, true)], issued := {0})

  /** The release arrives during the shutdown, so the call is to be recorded as interrupted. */
  lemma ReleaseIsInterrupted()
    ensures Steps(InShutdown, AdvanceArrives(0, ReleasedAs(0)), Interrupted)
  {
    assert {} + {0} == {0};
  }

  /** Its result arrives too, and the store does not record the interruption. */
  lemma InterruptionIsLost()
    ensures var waits := Interrupted.(results := [Result("a", 0, true)]);
      Steps(Interrupted, ResultComes("a"), waits) && Steps(waits, InterruptionArrives(0, Ack(false, false)), Answerless)
  {}

  /** Where each remainder leaves the guard when the shutdown resets it. */
  function Left(remainder: Remainder): System {
    match remainder
    case ItselfInFlight => InShutdown
    case ItsInterruption => Interrupted
    case ItsResult => Answerless
  }

  /** Only the first action starts a call, and the call is "a". */
  predicate StartsOnce(actions: seq<Action>) {
    actions != [] && actions[0].Start? && actions[0].id == "a" && forall i :: 0 < i < |actions| ==> !actions[i].Start?
  }

  lemma StartsOnceStill(actions: seq<Action>, a: Action)
    requires StartsOnce(actions) && !a.Start?
    ensures StartsOnce(actions + [a])
  {}

  lemma OpeningFacts()
    ensures |Opening| == 4 && StartsOnce(Opening)
    ensures Left(ItselfInFlight) == InShutdown && Left(ItsInterruption) == Interrupted && Left(ItsResult) == Answerless
  {}

  lemma RemainderIsReached(remainder: Remainder) returns (more: seq<System>, rest: seq<Action>)
    ensures Continues(Initial, more, rest) && Before(Initial, more, |more|) == Left(remainder)
    ensures StartsOnce(rest)
  {
    hide *;
    OpeningFacts();
    more := ShutdownPassesRead();
    rest := Opening;
    LastOf(Initial, more, rest);
    if remainder.ItselfInFlight? { return; }
    var released := AdvanceArrives(0, ReleasedAs(0));
    ReleaseIsInterrupted();
    ContinuesOver(Initial, more, rest, released, Interrupted);
    StartsOnceStill(rest, released);
    more, rest := more + [Interrupted], rest + [released];
    if remainder.ItsInterruption? { return; }
    var waits, lost := Interrupted.(results := [Result("a", 0, true)]), InterruptionArrives(0, Ack(false, false));
    InterruptionIsLost();
    ContinuesOver(Initial, more, rest, ResultComes("a"), waits);
    StartsOnceStill(rest, ResultComes("a"));
    ContinuesOver(Initial, more + [waits], rest + [ResultComes("a")], lost, Answerless);
    StartsOnceStill(rest + [ResultComes("a")], lost);
    more, rest := more + [waits] + [Answerless], rest + [ResultComes("a")] + [lost];
  }

  lemma OneStartIsFair(more: seq<System>, rest: seq<Action>)
    requires Continues(Initial, more, rest) && StartsOnce(rest)
    ensures FairRun([Initial] + more, rest)
  {
    assert Run([Initial], []);
    RunExtends([Initial], [], more, rest);
    assert [] + rest == rest;
    hide Apply, Enabled, Continues;
    forall i | 0 <= i < |rest| ensures FreshId(([Initial] + more)[i], rest[i]) {
      if i == 0 { assert ([Initial] + more)[0] == Initial; }
    }
  }

  lemma LeftInShutdown(remainder: Remainder)
    ensures Left(remainder).shutdown == Visiting({"a"}, None, true) && Left(remainder).lease.activeCalls.Keys == {"a"}
  {}

  /** Each kind of answer can still be out when a shutdown resets the guard, in a run without any reuse. */
  lemma RemainderSurvivesReset(remainder: Remainder) returns (states: seq<System>, actions: seq<Action>)
    ensures FairRun(states, actions) && StartsOnce(actions)
    ensures |states| == |actions| + 1 && states[|actions|] == Reset(Left(remainder))
  {
    hide *;
    LeftInShutdown(remainder);
    var more, rest := RemainderIsReached(remainder);
    more := ShutdownResets(Initial, more, rest, Left(remainder));
    StartsOnceStill(rest, ShutdownLoopEnds);
    StartsOnceStill(rest + [ShutdownLoopEnds], ShutdownEnds(true));
    rest := rest + [ShutdownLoopEnds] + [ShutdownEnds(true)];
    LastOf(Initial, more, rest);
    OneStartIsFair(more, rest);
    states, actions := [Initial] + more, rest;
    assert states[|rest|] == more[|more| - 1];
  }

  lemma RemainderIsPending(remainder: Remainder)
    ensures var s := Reset(Left(remainder));
      |s.handlers| == 1 && s.lease.activeCalls == map[] && !FreshId(s, Start("a", Acceptable(true)))
  {
    var s := Reset(Left(remainder));
    assert Pending(s, s.handlers[0]) by {
      if remainder.ItsResult? { assert s.results[0].waiting; }
    }
  }

  lemma OnlyIdStarted(actions: seq<Action>, rest: seq<Action>)
    requires StartsOnce(actions) && forall a :: a in rest && a.Start? ==> a.id == "a"
    ensures forall a :: a in actions + rest && a.Start? ==> a.id == "a"
  {}

  /** Three runs in which reusing an id after a completed shutdown lets two calls through together, one of them
      a mutation: the first call was in flight, or its interruption, or its result, was still being recorded. */
  lemma IdReuseBreaksExclusion(remainder: Remainder) returns (states: seq<System>, actions: seq<Action>)
    ensures Run(states, actions) && forall a :: a in actions && a.Start? ==> a.id == "a"
    ensures |states| == |actions| + 1 && Collides(states[|actions|], 1, "a", true)
  {
    hide *;
    var first, acts := RemainderSurvivesReset(remainder);
    RemainderIsPending(remainder);
    var more, rest := StaleReuseBreaksExclusion(first, acts, "a", Acceptable(true));
    states, actions := first + more, acts + rest;
    OnlyIdStarted(acts, rest);
    assert states[|actions|] == more[|more| - 1];
  }
}
