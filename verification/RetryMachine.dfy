/** The retry executor as a state machine: one step per point where executeWithRetry runs,
    suspends or is woken (apps/gateway-app/src/execute/retry-executor.ts). */
module RetryMachine {
  import opened Collections
  import opened Messages

  datatype Config = Config(
    maxAttempts: int,
    initialDelayMs: real,
    backoffMultiplier: real,
    maxDelayMs: real,
    onlyRetryable: bool)

  /** The caller's overrides: an absent field takes the default. */
  datatype Overrides = Overrides(
    maxAttempts: Option<int>,
    initialDelayMs: Option<real>,
    backoffMultiplier: Option<real>,
    maxDelayMs: Option<real>,
    onlyRetryable: Option<bool>)

  function OrElse<T>(o: Option<T>, default: T): T {
    if o.Some? then o.value else default
  }

  function Resolve(o: Option<Overrides>): Config {
    match o
    case None => Config(1, 1000.0, 2.0, 30000.0, true)
    case Some(c) => Config(
      OrElse(c.maxAttempts, 1), OrElse(c.initialDelayMs, 1000.0), OrElse(c.backoffMultiplier, 2.0),
      OrElse(c.maxDelayMs, 30000.0), OrElse(c.onlyRetryable, true))
  }

  function Attempts(cfg: Config): nat {
    Max(1, cfg.maxAttempts)
  }

  /** Attempts are numbered from 1. */
  type Ordinal = k: int | 1 <= k witness 1

  function Pow(base: real, n: nat): real {
    if n == 0 then 1.0 else base * Pow(base, n - 1)
  }

  function Scaled(initial: real, multiplier: real, n: nat): real {
    initial * Pow(multiplier, n)
  }

  /** The pause after failed attempt number `attempt`. */
  function Delay(cfg: Config, attempt: Ordinal): real {
    MinReal(Scaled(cfg.initialDelayMs, cfg.backoffMultiplier, attempt - 1), cfg.maxDelayMs)
  }

  predicate Includes(s: string, part: string) {
    exists i | 0 <= i <= |s| :: part <= s[i..]
  }

  function Text(f: Failure): string {
    match f
    case ErrorObject(m) => m
    case Thrown(t) => t
  }

  predicate Retryable(f: Failure) {
    f.ErrorObject? &&
    (Includes(f.message, "ECONNREFUSED") || Includes(f.message, "ECONNRESET") ||
     Includes(f.message, "ETIMEDOUT") || Includes(f.message, "timed out") ||
     Includes(f.message, "503") || Includes(f.message, "Service Unavailable") ||
     Includes(f.message, "Host not connected"))
  }

  /** No further attempt after this failure of attempt k. */
  predicate GivesUp(cfg: Config, k: Ordinal, f: Failure) {
    k >= Attempts(cfg) || (cfg.onlyRetryable && !Retryable(f))
  }

  /** How executeWithRetry ends: it returns a value, throws CancelledError, or throws the last error. */
  datatype Outcome = Value(data: Data) | Abandoned(reason: Reason) | Failed(message: string)

  /** Where the run stands: about to start an attempt, waiting for the call, holding its failure,
      waiting for the backoff timer, or ended. */
  datatype Phase =
    | Starting(attempt: Ordinal)
    | Calling(attempt: Ordinal)
    | Holding(attempt: Ordinal, failure: Failure)
    | Pausing(attempt: Ordinal)
    | Ended(outcome: Outcome)

  datatype Machine = Machine(phase: Phase, signal: Option<Reason>, dispatches: nat)

  /** What can happen to a run: its own code continues, the call settles, the backoff timer fires,
      or some party aborts the signal. */
  datatype Stimulus =
    | Proceed
    | CallResolves(data: Data)
    | CallRejects(failure: Failure)
    | TimerFires
    | Abort(reason: Reason)

  function Start(signal: Option<Reason>): Machine {
    Machine(Starting(1), signal, 0)
  }

  function Aborted(m: Machine, reason: Reason): Machine {
    if m.signal.Some? then m
    else
      var phase := if m.phase.Calling? || m.phase.Pausing? then Ended(Abandoned(reason)) else m.phase;
      m.(signal := Some(reason), phase := phase)
  }

  function Step(cfg: Config, m: Machine, s: Stimulus): (Machine, seq<Event>) {
    match (m.phase, s)
    case (_, Abort(reason)) => (Aborted(m, reason), [])
    case (Starting(k), Proceed) =>
      (match m.signal
       case Some(reason) => (m.(phase := Ended(Abandoned(reason))), [])
       case None => (m.(phase := Calling(k), dispatches := m.dispatches + 1), []))
    case (Calling(k), CallResolves(data)) => (m.(phase := Ended(Value(data))), [])
    case (Calling(k), CallRejects(failure)) => (m.(phase := Holding(k, failure)), [])
    case (Holding(k, failure), Proceed) =>
      if GivesUp(cfg, k, failure) then
        (m.(phase := Ended(Failed(Text(failure)))), [])
      else
        var retry := Retry(k, Attempts(cfg), Delay(cfg, k), Text(failure));
        (match m.signal
         case Some(reason) => (m.(phase := Ended(Abandoned(reason))), [retry])
         case None => (m.(phase := Pausing(k)), [retry]))
    case (Pausing(k), TimerFires) => (m.(phase := Starting(k + 1)), [])
    case _ => (m, [])
  }

  function Drive(cfg: Config, m: Machine, tape: seq<Stimulus>): (Machine, seq<Event>)
    decreases |tape|
  {
    if tape == [] then (m, [])
    else
      var (m1, out1) := Step(cfg, m, tape[0]);
      var (m2, out2) := Drive(cfg, m1, tape[1..]);
      (m2, out1 + out2)
  }

  lemma DriveFrom(cfg: Config, m: Machine, s: Stimulus, rest: seq<Stimulus>)
    ensures var (m1, out1) := Step(cfg, m, s);
      Drive(cfg, m, [s] + rest) == (Drive(cfg, m1, rest).0, out1 + Drive(cfg, m1, rest).1)
  {
    assert ([s] + rest)[1..] == rest;
  }

  lemma JoinEvents(a: seq<Event>, b: seq<Event>, c: seq<Event>)
    ensures a + b + c == a + (b + c)
  {
  }

  lemma {:induction false} DriveAppend(cfg: Config, m: Machine, a: seq<Stimulus>, b: seq<Stimulus>)
    ensures Drive(cfg, m, a + b).0 == Drive(cfg, Drive(cfg, m, a).0, b).0
    ensures Drive(cfg, m, a + b).1 == Drive(cfg, m, a).1 + Drive(cfg, Drive(cfg, m, a).0, b).1
    decreases |a|
  {
    if a == [] {
      assert a + b == b;
      assert Drive(cfg, m, a) == (m, []);
    } else {
      var s, rest := a[0], a[1..];
      var (m1, out1) := Step(cfg, m, s);
      assert a == [s] + rest && a + b == [s] + (rest + b);
      DriveFrom(cfg, m, s, rest);
      DriveFrom(cfg, m, s, rest + b);
      DriveAppend(cfg, m1, rest, b);
      var (m2, out2) := Drive(cfg, m1, rest);
      JoinEvents(out1, out2, Drive(cfg, m2, b).1);
    }
  }

  // ---------- what a run may write ----------

  /** `events` is retry 1, retry 2, ..., each with the configured total and its own backoff delay. */
  ghost predicate Retries(cfg: Config, events: seq<Event>) {
    forall i :: 0 <= i < |events| ==>
      events[i].Retry? && events[i].attempt == i + 1 && events[i].maxAttempts == Attempts(cfg)
      && events[i].delayMs == Delay(cfg, i + 1)
  }

  /** The closing events the execute route writes for an outcome. */
  function Closing(o: Outcome): seq<Event> {
    match o
    case Value(data) => [Done(0, Some(data))]
    case Abandoned(reason) => [Cancelled(reason), Done(130, None)]
    case Failed(message) => [Error(message), Done(1, None)]
  }

  /** The grammar of a complete event stream: numbered retries, then exactly one closing. */
  ghost predicate CompleteStream(cfg: Config, signal: Option<Reason>, log: seq<Event>) {
    exists n: nat, o: Outcome :: Stream(cfg, signal, log, n, o)
  }

  ghost predicate Stream(cfg: Config, signal: Option<Reason>, log: seq<Event>, n: nat, o: Outcome) {
    && n < Attempts(cfg) && n <= |log|
    && Retries(cfg, log[..n])
    && log[n..] == Closing(o)
    && (o.Abandoned? ==> signal == Some(o.reason))
  }

  /** Holds of a machine and the events written so far, from the start of every run. */
  ghost predicate Coherent(cfg: Config, m: Machine, log: seq<Event>) {
    && Retries(cfg, log)
    && |log| < Attempts(cfg)
    && (match m.phase
        case Starting(k) => 1 <= k <= Attempts(cfg) && |log| == k - 1 && m.dispatches == k - 1
        case Calling(k) => 1 <= k <= Attempts(cfg) && |log| == k - 1 && m.dispatches == k && m.signal.None?
        case Holding(k, _) => 1 <= k <= Attempts(cfg) && |log| == k - 1 && m.dispatches == k
        case Pausing(k) => 1 <= k < Attempts(cfg) && |log| == k && m.dispatches == k && m.signal.None?
        case Ended(o) =>
          && (m.dispatches == |log| + 1 || (o.Abandoned? && m.dispatches == |log|))
          && (o.Abandoned? ==> m.signal == Some(o.reason)))
  }

  lemma StepCoherent(cfg: Config, m: Machine, log: seq<Event>, s: Stimulus)
    requires Coherent(cfg, m, log)
    ensures Coherent(cfg, Step(cfg, m, s).0, log + Step(cfg, m, s).1)
  {
    assert log + [] == log;
  }

  lemma {:induction false} DriveCoherent(cfg: Config, m: Machine, log: seq<Event>, tape: seq<Stimulus>)
    requires Coherent(cfg, m, log)
    ensures Coherent(cfg, Drive(cfg, m, tape).0, log + Drive(cfg, m, tape).1)
    decreases |tape|
  {
    if tape == [] {
      assert log + [] == log;
    } else {
      var (m1, out1) := Step(cfg, m, tape[0]);
      StepCoherent(cfg, m, log, tape[0]);
      DriveCoherent(cfg, m1, log + out1, tape[1..]);
      assert log + out1 + Drive(cfg, m1, tape[1..]).1 == log + (out1 + Drive(cfg, m1, tape[1..]).1);
    }
  }

  /** Every run, whatever settles, fails, fires or aborts and in whatever order: if it ends, the
      retries it wrote followed by the closing of its outcome form a complete stream; it dispatched
      once more than it retried unless it was abandoned during a backoff (or before its first
      attempt), and never more often than the attempts allowed. */
  lemma RunWritesCompleteStream(cfg: Config, signal: Option<Reason>, tape: seq<Stimulus>)
    requires Drive(cfg, Start(signal), tape).0.phase.Ended?
    ensures var (m, out) := Drive(cfg, Start(signal), tape);
      && CompleteStream(cfg, m.signal, out + Closing(m.phase.outcome))
      && (m.dispatches == |out| + 1 || (m.phase.outcome.Abandoned? && m.dispatches == |out|))
      && m.dispatches <= Attempts(cfg) && |out| < Attempts(cfg)
  {
    DriveCoherent(cfg, Start(signal), [], tape);
    var (m, out) := Drive(cfg, Start(signal), tape);
    assert [] + out == out;
    var log := out + Closing(m.phase.outcome);
    assert log[..|out|] == out && log[|out|..] == Closing(m.phase.outcome);
    assert Stream(cfg, m.signal, log, |out|, m.phase.outcome);
  }

  /** A stream, event by event. */
  lemma StreamEvents(cfg: Config, signal: Option<Reason>, log: seq<Event>, n: nat, o: Outcome)
    requires Stream(cfg, signal, log, n, o)
    ensures |log| == n + |Closing(o)|
    ensures forall i :: 0 <= i < n ==> log[i].Retry? && log[i].attempt == i + 1
    ensures log[n] == Closing(o)[0] && log[|log| - 1] == Closing(o)[|Closing(o)| - 1]
  {
    var retries, closing := log[..n], log[n..];
    assert forall i :: 0 <= i < n ==> log[i] == retries[i];
    assert log[n] == closing[0] && log[|log| - 1] == closing[|closing| - 1];
  }

  /** What the grammar means to a reader of the stream: `done` stands last and nowhere else, its exit
      code tells the closing, and a `cancelled` event carries the reason of the aborted signal. */
  lemma CompleteStreamShape(cfg: Config, signal: Option<Reason>, log: seq<Event>)
    requires CompleteStream(cfg, signal, log)
    ensures log != [] && log[|log| - 1].Done?
    ensures forall i :: 0 <= i < |log| && log[i].Done? ==> i == |log| - 1
    ensures forall i :: 0 <= i < |log| && log[i].Cancelled? ==>
      i == |log| - 2 && signal == Some(log[i].reason) && log[|log| - 1].exitCode == 130
    ensures forall i :: 0 <= i < |log| && log[i].Error? ==> i == |log| - 2 && log[|log| - 1].exitCode == 1
    ensures forall i :: 0 <= i < |log| && log[i].Retry? ==> log[i].attempt == i + 1
    ensures log[|log| - 1].exitCode == 0 <==> forall i :: 0 <= i < |log| - 1 ==> log[i].Retry?
  {
    var n: nat, o: Outcome :| Stream(cfg, signal, log, n, o);
    StreamEvents(cfg, signal, log, n, o);
    match o
    case Value(_) => assert n == |log| - 1 && !log[n].Retry?;
    case Abandoned(reason) => assert n == |log| - 2 && log[n] == Cancelled(reason) && signal == Some(reason);
    case Failed(_) => assert n == |log| - 2 && log[n].Error?;
  }

  /** The execute route passes no configuration: its stream is a closing and nothing else. */
  lemma RouteStreamIsClosing(signal: Option<Reason>, log: seq<Event>)
    requires CompleteStream(Resolve(None), signal, log)
    ensures exists o :: log == Closing(o) && (o.Abandoned? ==> signal == Some(o.reason))
  {
    var n: nat, o: Outcome :| Stream(Resolve(None), signal, log, n, o);
    assert n == 0 && log[n..] == log;
  }

  lemma NoDispatchAfterAbortStep(cfg: Config, m: Machine, s: Stimulus)
    requires m.signal.Some?
    ensures Step(cfg, m, s).0.signal == m.signal && Step(cfg, m, s).0.dispatches == m.dispatches
  {
  }

  /** Aborting is final: from then on the signal keeps its reason and no further call is dispatched. */
  lemma {:induction false} NoDispatchAfterAbort(cfg: Config, m: Machine, tape: seq<Stimulus>)
    requires m.signal.Some?
    ensures Drive(cfg, m, tape).0.signal == m.signal
    ensures Drive(cfg, m, tape).0.dispatches == m.dispatches
    decreases |tape|
  {
    if tape != [] {
      NoDispatchAfterAbort(cfg, Step(cfg, m, tape[0]).0, tape[1..]);
    }
  }

  /** The first abort decides: a run that ends abandoned ends with the reason of the first Abort on
      its tape, unless it started on an aborted signal. */
  lemma {:induction false} FirstAbortWins(cfg: Config, m: Machine, tape: seq<Stimulus>, i: nat)
    requires m.signal.None? && i < |tape| && tape[i].Abort?
    requires forall j :: 0 <= j < i ==> !tape[j].Abort?
    ensures Drive(cfg, m, tape).0.signal == Some(tape[i].reason)
    decreases |tape|
  {
    var m1 := Step(cfg, m, tape[0]).0;
    if i == 0 {
      NoDispatchAfterAbort(cfg, m1, tape[1..]);
    } else {
      FirstAbortWins(cfg, m1, tape[1..], i - 1);
    }
  }
}
