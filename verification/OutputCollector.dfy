/** Two collector threads share one output budget while a supervisor watches the process.
    Every step here is one atomic action of one thread. */
module OutputCollector {
  type Byte = bv8

  const LIMIT: nat := 1024 * 1024
  const BUFFER: nat := 8192
  /** The counter is an unsigned 64-bit word. */
  const WORD: nat := 0x1_0000_0000_0000_0000

  /** Where a collector stands: before a read, holding a chunk it has not counted, holding a chunk it
      has counted, at the end of its pipe, or stopped by a failed read. */
  datatype Collecting = Reading | Counting(chunk: seq<Byte>) | Storing(chunk: seq<Byte>, previous: nat) | Ended | Broken

  /** One pipe with its collector: everything written, how much was read, whether the writer still holds
      the pipe, and what was captured. */
  datatype Pipe = Pipe(written: seq<Byte>, read: nat, open: bool, captured: seq<Byte>, at: Collecting)

  /** The supervisor polls, then waits for both collectors, then reports. */
  datatype Watching = Polling | Joining | Reported(result: Result)

  datatype Result = Finished(stdout: seq<Byte>, stderr: seq<Byte>, killed: bool) | Exceeded | TimedOut | Failed

  datatype System = System(
    stdout: Pipe,
    stderr: Pipe,
    total: nat,
    exceeded: bool,
    counted: nat,
    exited: bool,
    killed: bool,
    timedOut: bool,
    watching: Watching)

  const Spawned := System(Pipe([], 0, true, [], Reading), Pipe([], 0, true, [], Reading), 0, false, 0, false, false,
      false, Polling)

  datatype Action =
    | Write(err: bool, data: seq<Byte>)
    | Close(err: bool)
    | Read(err: bool, count: nat)
    | ReadFails(err: bool)
    | Count(err: bool)
    | Store(err: bool)
    | Exits
    | SeesExceeded
    | SeesTimeout
    | SeesTheEnd
    | Joins
    | WaitFails

  function PipeOf(s: System, err: bool): Pipe { if err then s.stderr else s.stdout }

  function WithPipe(s: System, err: bool, p: Pipe): System { if err then s.(stderr := p) else s.(stdout := p) }

  predicate AtRest(p: Pipe) { p.at.Ended? || p.at.Broken? }

  predicate Enabled(s: System, a: Action) {
    match a
    case Write(err, _) => PipeOf(s, err).open
    case Close(err) => PipeOf(s, err).open
    case Read(err, count) =>
      var p := PipeOf(s, err);
      p.at.Reading? && p.read <= |p.written|
      && (if count == 0 then !p.open && p.read == |p.written| else count <= BUFFER && p.read + count <= |p.written|)
    case ReadFails(err) => PipeOf(s, err).at.Reading?
    case Count(err) => PipeOf(s, err).at.Counting?
    case Store(err) => PipeOf(s, err).at.Storing?
    case Exits => !s.exited
    case SeesExceeded => s.watching.Polling? && s.exceeded
    case SeesTimeout => s.watching.Polling? && !s.exceeded
    case SeesTheEnd => s.watching.Polling? && s.exited && AtRest(s.stdout) && AtRest(s.stderr)
    case Joins => s.watching.Joining? && s.exited && AtRest(s.stdout) && AtRest(s.stderr)
    case WaitFails => !s.watching.Reported?
  }

  /** The addition saturates at the largest word, which is above the limit either way. */
  predicate OverLimit(previous: nat, count: nat) { previous + count > LIMIT }

  function Apply(s: System, a: Action): System
    requires Enabled(s, a)
  {
    match a
    case Write(err, data) => var p := PipeOf(s, err); WithPipe(s, err, p.(written := p.written + data))
    case Close(err) => WithPipe(s, err, PipeOf(s, err).(open := false))
    case Read(err, count) =>
      var p := PipeOf(s, err);
      WithPipe(s, err, if count == 0 then p.(at := Ended)
                       else p.(read := p.read + count, at := Counting(p.written[p.read..p.read + count])))
    case ReadFails(err) => WithPipe(s, err, PipeOf(s, err).(at := Broken))
    case Count(err) =>
      var p := PipeOf(s, err);
      WithPipe(s, err, p.(at := Storing(p.at.chunk, s.total))).(total := (s.total + |p.at.chunk|) % WORD,
          counted := s.counted + |p.at.chunk|)
    case Store(err) =>
      var p := PipeOf(s, err);
      if OverLimit(p.at.previous, |p.at.chunk|)
      then WithPipe(s, err, p.(at := Reading)).(exceeded := true)
      else WithPipe(s, err, p.(captured := p.captured + p.at.chunk, at := Reading))
    case Exits => s.(exited := true)
    case SeesExceeded => s.(killed := true, watching := Joining)
    case SeesTimeout => s.(killed := true, timedOut := true, watching := Joining)
    case SeesTheEnd => s.(watching := Joining)
    case Joins =>
      s.(watching := Reported(
        if s.stdout.at.Broken? || s.stderr.at.Broken? then Failed
        else if s.exceeded then Exceeded
        else if s.timedOut then TimedOut
        else Finished(s.stdout.captured, s.stderr.captured, s.killed)))
    case WaitFails => s.(watching := Reported(Failed))
  }

  // ---- What the threads share ---------------------------------------------------------------------------

  datatype Shared = Shared(total: nat, exceeded: bool, stdout: seq<Byte>, stderr: seq<Byte>)

  function SharedOf(s: System): Shared { Shared(s.total, s.exceeded, s.stdout.captured, s.stderr.captured) }

  function Added(s: Shared, count: nat): Shared { s.(total := (s.total + count) % WORD) }

  function KeptIn(s: Shared, err: bool, chunk: seq<Byte>, previous: nat): Shared {
    if OverLimit(previous, |chunk|) then s.(exceeded := true)
    else if err then s.(stderr := s.stderr + chunk) else s.(stdout := s.stdout + chunk)
  }

  class SharedOutput {
    var total: nat
    var exceeded: bool
    var stdout: seq<Byte>
    var stderr: seq<Byte>

    function Now(): Shared reads this { Shared(total, exceeded, stdout, stderr) }

    constructor ()
      ensures Now() == SharedOf(Spawned)
    {
      total, exceeded, stdout, stderr := 0, false, [], [];
    }

    /** An atomic addition on a machine word, which answers what was there before. */
    method FetchAdd(count: nat) returns (previous: nat)
      modifies this
      ensures previous == old(total) && Now() == Added(old(Now()), count)
    {
      previous := total;
      total := (total + count) % WORD;
    }

    /** Keep a counted chunk, or raise the flag and drop it. */
    method Keep(err: bool, chunk: seq<Byte>, previous: nat)
      modifies this
      ensures Now() == KeptIn(old(Now()), err, chunk, previous)
    {
      if previous + |chunk| > LIMIT {
        exceeded := true;
        return;
      }
      if err { stderr := stderr + chunk; } else { stdout := stdout + chunk; }
    }
  }

  /** The threads touch what they share only by counting and by keeping. */
  lemma StepsOnTheShared(s: System, a: Action)
    requires Enabled(s, a)
    ensures SharedOf(Apply(s, a)) ==
      match a
      case Count(err) => Added(SharedOf(s), |PipeOf(s, err).at.chunk|)
      case Store(err) => KeptIn(SharedOf(s), err, PipeOf(s, err).at.chunk, PipeOf(s, err).at.previous)
      case _ => SharedOf(s)
  {}

  // ---- Runs -------------------------------------------------------------------------------------------

  ghost predicate Run(states: seq<System>, actions: seq<Action>) {
    && |states| == |actions| + 1 && states[0] == Spawned
    && forall i :: 0 <= i < |actions| ==>
        Enabled(states[i], actions[i]) && states[i + 1] == Apply(states[i], actions[i])
  }

  /** The chunk a collector read and has not stored yet. */
  function InHand(p: Pipe): seq<Byte> { if p.at.Counting? || p.at.Storing? then p.at.chunk else [] }

  /** The bytes a counted chunk will add to the capture. */
  function Due(p: Pipe): nat { if p.at.Storing? && !OverLimit(p.at.previous, |p.at.chunk|) then |p.at.chunk| else 0 }

  predicate Doomed(p: Pipe) { p.at.Storing? && OverLimit(p.at.previous, |p.at.chunk|) }

  /** The bytes a collector has read and not counted. */
  function Uncounted(p: Pipe): nat { if p.at.Counting? then |p.at.chunk| else 0 }

  function Kept(s: System): nat { |s.stdout.captured| + |s.stderr.captured| + Due(s.stdout) + Due(s.stderr) }

  /** Without a raised flag a pipe's capture and the chunk in hand are exactly what was read. */
  predicate Faithful(exceeded: bool, p: Pipe) {
    && p.read <= |p.written|
    && (!exceeded ==> p.captured + InHand(p) == p.written[..p.read])
    && (p.at.Ended? ==> !p.open && p.read == |p.written|)
  }

  predicate PipesFaithful(s: System) { Faithful(s.exceeded, s.stdout) && Faithful(s.exceeded, s.stderr) }

  /** What is kept is what was counted, up to the limit; beyond it some collector raises the flag. */
  predicate Budgeted(s: System) {
    && s.counted + Uncounted(s.stdout) + Uncounted(s.stderr) == s.stdout.read + s.stderr.read
    && (s.counted < WORD ==> Kept(s) <= LIMIT && (s.counted <= LIMIT ==> Kept(s) == s.counted))
    && (s.counted > LIMIT ==> s.exceeded || Doomed(s.stdout) || Doomed(s.stderr))
  }

  predicate Reporting(s: System) {
    && (s.killed ==> s.exceeded || s.timedOut)
    && (s.watching.Reported? && s.watching.result.Finished? ==>
          s.stdout.at.Ended? && s.stderr.at.Ended? && !s.exceeded && !s.timedOut
          && s.watching.result == Finished(s.stdout.captured, s.stderr.captured, s.killed))
  }

  predicate Good(s: System) { s.total == s.counted % WORD && PipesFaithful(s) && Budgeted(s) && Reporting(s) }

  lemma WriteKeepsFaithful(x: bool, p: Pipe, data: seq<Byte>)
    requires Faithful(x, p) && p.open
    ensures Faithful(x, p.(written := p.written + data))
  {
    assert (p.written + data)[..p.read] == p.written[..p.read];
  }

  lemma ReadKeepsFaithful(x: bool, p: Pipe, count: nat)
    requires Faithful(x, p) && p.at.Reading? && p.read + count <= |p.written|
    ensures Faithful(x, p.(read := p.read + count, at := Counting(p.written[p.read..p.read + count])))
  {
    assert p.captured + [] == p.captured;
    assert p.written[..p.read] + p.written[p.read..p.read + count] == p.written[..p.read + count];
  }

  lemma StoreKeepsFaithful(x: bool, p: Pipe)
    requires Faithful(x, p) && p.at.Storing?
    ensures Faithful(x, p.(captured := p.captured + p.at.chunk, at := Reading)) && Faithful(true, p.(at := Reading))
  {
    assert p.captured + p.at.chunk + [] == p.captured + p.at.chunk;
  }

  lemma WithPipeFaithful(s: System, err: bool, p: Pipe, exceeded: bool)
    requires PipesFaithful(s) && Faithful(exceeded, p) && (s.exceeded ==> exceeded)
    ensures PipesFaithful(WithPipe(s, err, p).(exceeded := exceeded))
  {}

  lemma OtherKeepsFaithful(s: System, a: Action)
    requires PipesFaithful(s) && Enabled(s, a) && !a.Write? && !a.Store? && (a.Read? ==> a.count == 0)
    ensures PipesFaithful(Apply(s, a))
  {}

  /** A step of one pipe keeps that pipe's capture faithful; the other pipe is not touched. */
  lemma StepKeepsFaithful(s: System, a: Action)
    requires PipesFaithful(s) && Enabled(s, a)
    ensures PipesFaithful(Apply(s, a))
  {
    hide Faithful;
    if a.Write? {
      var p := PipeOf(s, a.err);
      WriteKeepsFaithful(s.exceeded, p, a.data);
      WithPipeFaithful(s, a.err, p.(written := p.written + a.data), s.exceeded);
    } else if a.Read? && a.count > 0 {
      var p := PipeOf(s, a.err);
      ReadKeepsFaithful(s.exceeded, p, a.count);
      WithPipeFaithful(s, a.err, p.(read := p.read + a.count, at := Counting(p.written[p.read..p.read + a.count])),
          s.exceeded);
    } else if a.Store? {
      var p := PipeOf(s, a.err);
      StoreKeepsFaithful(s.exceeded, p);
      if OverLimit(p.at.previous, |p.at.chunk|) {
        WithPipeFaithful(s, a.err, p.(at := Reading), true);
      } else {
        WithPipeFaithful(s, a.err, p.(captured := p.captured + p.at.chunk, at := Reading), s.exceeded);
      }
    } else {
      OtherKeepsFaithful(s, a);
    }
  }

  /** Counting a chunk of n bytes against what was counted before it. */
  lemma CountKeepsBudget(s: System, err: bool)
    requires s.total == s.counted % WORD && Budgeted(s) && Enabled(s, Count(err))
    ensures Budgeted(Apply(s, Count(err)))
  {
    var p := PipeOf(s, err);
    var q := p.at;
    var t := Apply(s, Count(err));
    assert PipeOf(t, err) == p.(at := Storing(q.chunk, s.total)) && PipeOf(t, !err) == PipeOf(s, !err);
    assert t.counted == s.counted + |q.chunk| && t.exceeded == s.exceeded;
    assert s.counted < WORD ==> s.total == s.counted;
    assert Due(p) == 0 && Uncounted(PipeOf(t, err)) == 0 && Uncounted(p) == |q.chunk|;
    assert Due(PipeOf(t, err)) == if s.total + |q.chunk| > LIMIT then 0 else |q.chunk|;
    assert Doomed(PipeOf(t, err)) <==> s.total + |q.chunk| > LIMIT;
    assert Kept(t) == Kept(s) + Due(PipeOf(t, err));
    hide Apply, Due, Kept, Uncounted, Doomed;
    if err {} else {}
  }

  /** A pipe carries its accounts over a step; a chunk doomed before is still in hand or has raised the flag. */
  predicate Carries(p: Pipe, q: Pipe, raised: bool) {
    && q.read - Uncounted(q) == p.read - Uncounted(p)
    && |q.captured| + Due(q) == |p.captured| + Due(p)
    && (Doomed(p) ==> Doomed(q) || raised)
  }

  lemma CarriedAccountsKeepBudget(s: System, t: System)
    requires Budgeted(s) && t.counted == s.counted && (s.exceeded ==> t.exceeded)
    requires Carries(s.stdout, t.stdout, t.exceeded) && Carries(s.stderr, t.stderr, t.exceeded)
    ensures Budgeted(t)
  {
    hide Uncounted, Due, Doomed;
  }

  predicate OnPipe(a: Action) { a.Write? || a.Close? || a.Read? || a.ReadFails? || a.Store? }

  lemma ReadCarries(p: Pipe, count: nat, raised: bool)
    requires p.at.Reading? && p.read + count <= |p.written|
    ensures Carries(p, p.(read := p.read + count, at := Counting(p.written[p.read..p.read + count])), raised)
  {}

  lemma StoreCarries(p: Pipe, raised: bool)
    requires p.at.Storing?
    ensures OverLimit(p.at.previous, |p.at.chunk|) ==> Carries(p, p.(at := Reading), true)
    ensures !OverLimit(p.at.previous, |p.at.chunk|) ==>
        Carries(p, p.(captured := p.captured + p.at.chunk, at := Reading), raised)
  {}

  lemma StepCarriesItsPipe(s: System, a: Action)
    requires Enabled(s, a) && OnPipe(a)
    ensures Carries(PipeOf(s, a.err), PipeOf(Apply(s, a), a.err), Apply(s, a).exceeded)
  {
    var p := PipeOf(s, a.err);
    if a.Read? && a.count > 0 {
      ReadCarries(p, a.count, s.exceeded);
      hide Carries;
    } else if a.Store? {
      StoreCarries(p, s.exceeded);
      hide Carries;
    } else {
      hide OverLimit;
    }
  }

  lemma StepLeavesTheRest(s: System, a: Action)
    requires Enabled(s, a) && !a.Count?
    ensures Apply(s, a).counted == s.counted && (s.exceeded ==> Apply(s, a).exceeded)
    ensures OnPipe(a) ==> PipeOf(Apply(s, a), !a.err) == PipeOf(s, !a.err)
    ensures !OnPipe(a) ==> Apply(s, a).stdout == s.stdout && Apply(s, a).stderr == s.stderr
  {
    hide OverLimit;
    if OnPipe(a) { if a.err {} else {} }
  }

  lemma StepCarriesAccounts(s: System, a: Action)
    requires Enabled(s, a) && !a.Count?
    ensures var t := Apply(s, a);
      && t.counted == s.counted && (s.exceeded ==> t.exceeded)
      && Carries(s.stdout, t.stdout, t.exceeded) && Carries(s.stderr, t.stderr, t.exceeded)
  {
    var t := Apply(s, a);
    StepLeavesTheRest(s, a);
    hide Apply, Enabled, Uncounted, Due, Doomed;
    if OnPipe(a) { StepCarriesItsPipe(s, a); }
  }

  lemma StepKeepsBudget(s: System, a: Action)
    requires s.total == s.counted % WORD && Budgeted(s) && Enabled(s, a)
    ensures Budgeted(Apply(s, a))
  {
    hide Budgeted, Apply, Enabled;
    if a.Count? {
      CountKeepsBudget(s, a.err);
    } else {
      StepCarriesAccounts(s, a);
      CarriedAccountsKeepBudget(s, Apply(s, a));
    }
  }

  lemma StepKeepsReport(s: System, a: Action)
    requires Reporting(s) && Enabled(s, a)
    ensures Reporting(Apply(s, a))
  {}

  lemma StepKeepsTotal(s: System, a: Action)
    requires s.total == s.counted % WORD && Enabled(s, a)
    ensures Apply(s, a).total == Apply(s, a).counted % WORD
  {
    if a.Count? { WordSum(s.counted, |PipeOf(s, a.err).at.chunk|); }
  }

  lemma StepKeepsGood(s: System, a: Action)
    requires Good(s) && Enabled(s, a)
    ensures Good(Apply(s, a))
  {
    hide PipesFaithful, Budgeted, Reporting, Apply, Enabled;
    StepKeepsFaithful(s, a);
    StepKeepsBudget(s, a);
    StepKeepsReport(s, a);
    StepKeepsTotal(s, a);
  }

  lemma WordSum(a: nat, b: nat)
    ensures (a % WORD + b) % WORD == (a + b) % WORD
  {
    var q := a / WORD;
    assert a == q * WORD + a % WORD;
    AddWords(a % WORD + b, q);
    assert a % WORD + b + q * WORD == a + b;
  }

  lemma {:induction false} AddWords(x: nat, q: nat)
    ensures (x + q * WORD) % WORD == x % WORD
  {
    if q > 0 {
      AddWords(x, q - 1);
      assert x + q * WORD == (x + (q - 1) * WORD) + WORD;
      assert ((x + (q - 1) * WORD) + WORD) % WORD == (x + (q - 1) * WORD) % WORD;
    }
  }

  lemma {:induction false} RunStaysGood(states: seq<System>, actions: seq<Action>, i: nat)
    requires Run(states, actions) && i <= |actions|
    ensures Good(states[i])
  {
    if i > 0 {
      RunStaysGood(states, actions, i - 1);
      hide Good, Apply, Enabled;
      StepKeepsGood(states[i - 1], actions[i - 1]);
    }
  }

  /** In every interleaving the two captures together stay within the limit, as long as the threads
      have counted fewer bytes than the counter can hold. */
  lemma CapturesStayWithinLimit(states: seq<System>, actions: seq<Action>, i: nat)
    requires Run(states, actions) && i <= |actions| && states[i].counted < WORD
    ensures |states[i].stdout.captured| + |states[i].stderr.captured| <= LIMIT
  {
    RunStaysGood(states, actions, i);
  }

  /** With both pipes at their end, an unraised flag means nothing is missing. */
  lemma QuietCapturesAreExact(states: seq<System>, actions: seq<Action>, i: nat)
    requires Run(states, actions) && i <= |actions|
    requires states[i].stdout.at.Ended? && states[i].stderr.at.Ended? && !states[i].exceeded
    ensures states[i].stdout.captured == states[i].stdout.written
    ensures states[i].stderr.captured == states[i].stderr.written
  {
    RunStaysGood(states, actions, i);
    hide Run;
    var o, e := states[i].stdout, states[i].stderr;
    assert o.captured + [] == o.captured && e.captured + [] == e.captured;
    assert o.written[..|o.written|] == o.written && e.written[..|e.written|] == e.written;
  }

  /** Once neither collector holds a chunk, the flag is raised exactly when more than the limit was read. */
  lemma FlagIffOverLimit(states: seq<System>, actions: seq<Action>, i: nat)
    requires Run(states, actions) && i <= |actions|
    requires InHand(states[i].stdout) == [] && InHand(states[i].stderr) == []
    requires !states[i].stdout.at.Storing? && !states[i].stderr.at.Storing?
    ensures states[i].exceeded <==> states[i].stdout.read + states[i].stderr.read > LIMIT
  {
    RunStaysGood(states, actions, i);
    FlagMeansOver(states, actions, i);
  }

  predicate Justified(s: System) {
    && (s.exceeded ==> s.counted > LIMIT)
    && (Doomed(s.stdout) ==> s.counted > LIMIT)
    && (Doomed(s.stderr) ==> s.counted > LIMIT)
  }

  lemma {:induction false} FlagMeansOver(states: seq<System>, actions: seq<Action>, i: nat)
    requires Run(states, actions) && i <= |actions|
    ensures Justified(states[i])
  {
    if i > 0 {
      FlagMeansOver(states, actions, i - 1);
      RunStaysGood(states, actions, i - 1);
      OverStays(states[i - 1], actions[i - 1]);
    }
  }

  lemma OverStays(s: System, a: Action)
    requires Good(s) && Enabled(s, a) && Justified(s)
    ensures Justified(Apply(s, a))
  {
    if a.Count? { assert s.total <= s.counted; }
  }

  /** A finished gate's output is everything it wrote, within the limit, and it was not killed. */
  lemma FinishedMeansComplete(states: seq<System>, actions: seq<Action>, i: nat)
    requires Run(states, actions) && i <= |actions|
    requires states[i].watching.Reported? && states[i].watching.result.Finished?
    ensures states[i].watching.result == Finished(states[i].stdout.written, states[i].stderr.written, false)
    ensures |states[i].stdout.written| + |states[i].stderr.written| <= LIMIT
  {
    RunStaysGood(states, actions, i);
    QuietCapturesAreExact(states, actions, i);
  }
}
