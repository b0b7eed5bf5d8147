/** executeWithRetry as the loop it is, run against an arbitrary environment. */
module RetryExecutor {
  import opened Collections
  import opened Messages
  import opened RetryMachine
  import opened Backoff

  /** How the race between a call and the abort signal comes out. */
  datatype Race = Answered(data: Data) | Refused(failure: Failure) | Interrupted(reason: Reason)

  /** What the environment does during one attempt: an abort before the attempt starts, the race of
      the call and how long it takes, an abort after the call failed, and an abort cutting the pause. */
  datatype Turn = Turn(
    early: Option<Reason>,
    callMs: real,
    race: Race,
    late: Option<Reason>,
    cut: Option<(real, Reason)>)

  function AbortBy(o: Option<Reason>): seq<Stimulus> {
    if o.Some? then [Abort(o.value)] else []
  }

  function Settlement(r: Race): Stimulus {
    match r
    case Answered(data) => CallResolves(data)
    case Refused(failure) => CallRejects(failure)
    case Interrupted(reason) => Abort(reason)
  }

  function PauseEnd(t: Turn): Stimulus {
    if t.cut.Some? then Abort(t.cut.value.1) else TimerFires
  }

  /** The stimuli of a turn, in the four stages at whose ends the run may be over. */
  function Opening(t: Turn): seq<Stimulus> { AbortBy(t.early) + [Proceed] }
  function Dispatched(t: Turn): seq<Stimulus> { Opening(t) + [Settlement(t.race)] }
  function Handled(t: Turn): seq<Stimulus> { Dispatched(t) + (AbortBy(t.late) + [Proceed]) }
  function Stimuli(t: Turn): seq<Stimulus> { Handled(t) + [PauseEnd(t)] }

  /** What the first n turns do to the run. */
  function Tape(script: nat -> Turn, n: nat): seq<Stimulus> {
    if n == 0 then [] else Tape(script, n - 1) + Stimuli(script(n))
  }

  lemma {:induction false} TapeGrows(script: nat -> Turn, m: nat, n: nat)
    requires m <= n
    ensures Tape(script, m) <= Tape(script, n)
    decreases n
  {
    if m < n { TapeGrows(script, m, n - 1); }
  }

  /** A call settles within the dispatcher's timeout, and a pause is cut before it is over. */
  predicate Timely(cfg: Config, k: Ordinal, t: Turn) {
    && 0.0 <= t.callMs <= 30000.0
    && (t.cut.Some? ==> 0.0 <= t.cut.value.0 <= MaxReal(Delay(cfg, k), 0.0))
  }

  lemma StagesArePrefixes(script: nat -> Turn, k: Ordinal, n: nat)
    requires k <= n
    ensures Tape(script, k - 1) + Opening(script(k)) <= Tape(script, n)
    ensures Tape(script, k - 1) + Dispatched(script(k)) <= Tape(script, n)
    ensures Tape(script, k - 1) + Handled(script(k)) <= Tape(script, n)
    ensures Tape(script, k - 1) + Stimuli(script(k)) == Tape(script, k) <= Tape(script, n)
  {
    TapeGrows(script, k, n);
    assert Opening(script(k)) <= Dispatched(script(k)) <= Handled(script(k)) <= Stimuli(script(k));
  }

  lemma DriveTwo(cfg: Config, m: Machine, o: Option<Reason>)
    ensures Drive(cfg, m, AbortBy(o) + [Proceed]).0
      == Step(cfg, if o.Some? then Aborted(m, o.value) else m, Proceed).0
    ensures Drive(cfg, m, AbortBy(o) + [Proceed]).1
      == Step(cfg, if o.Some? then Aborted(m, o.value) else m, Proceed).1
  {
    var m1 := if o.Some? then Aborted(m, o.value) else m;
    DriveOne(cfg, m1, Proceed);
    if o.Some? {
      assert (AbortBy(o) + [Proceed])[1..] == [Proceed];
      assert Step(cfg, m, Abort(o.value)) == (m1, []);
      assert [] + Drive(cfg, m1, [Proceed]).1 == Drive(cfg, m1, [Proceed]).1;
    } else {
      assert AbortBy(o) + [Proceed] == [Proceed];
    }
  }

  lemma DriveOne(cfg: Config, m: Machine, s: Stimulus)
    ensures Drive(cfg, m, [s]) == Step(cfg, m, s)
  {
    assert [s][1..] == [];
    assert Step(cfg, m, s).1 + [] == Step(cfg, m, s).1;
  }

  /** The run so far: `tape` takes the fresh machine to the given one, writing `events`. */
  ghost predicate Reached(cfg: Config, signal: Option<Reason>, tape: seq<Stimulus>, m: Machine, events: seq<Event>) {
    Drive(cfg, Start(signal), tape) == (m, events)
  }

  lemma Extend(cfg: Config, signal: Option<Reason>, tape: seq<Stimulus>, m: Machine, events: seq<Event>,
               more: seq<Stimulus>)
    requires Reached(cfg, signal, tape, m, events)
    ensures Reached(cfg, signal, tape + more, Drive(cfg, m, more).0, events + Drive(cfg, m, more).1)
  {
    DriveAppend(cfg, Start(signal), tape, more);
  }

  /** Where the machine stands at the end of each stage of attempt k, when the run is not over before. */
  lemma TurnOnMachine(cfg: Config, signal: Option<Reason>, tape: seq<Stimulus>, events: seq<Event>,
                      k: Ordinal, aborted: Option<Reason>, d: nat, t: Turn)
    requires Reached(cfg, signal, tape, Machine(Starting(k), aborted, d), events)
    ensures var seen := if aborted.None? then t.early else aborted;
      && (seen.Some? ==>
          Reached(cfg, signal, tape + Opening(t), Machine(Ended(Abandoned(seen.value)), seen, d), events))
      && (seen.None? && t.race.Answered? ==>
          Reached(cfg, signal, tape + Dispatched(t), Machine(Ended(Value(t.race.data)), None, d + 1), events))
      && (seen.None? && t.race.Interrupted? ==>
          Reached(cfg, signal, tape + Dispatched(t),
                  Machine(Ended(Abandoned(t.race.reason)), Some(t.race.reason), d + 1), events))
      && (seen.None? && t.race.Refused? ==>
          Reached(cfg, signal, tape + Dispatched(t), Machine(Holding(k, t.race.failure), None, d + 1), events))
  {
    var m := Machine(Starting(k), aborted, d);
    var seen := if aborted.None? then t.early else aborted;
    assert events + [] == events;
    DriveTwo(cfg, m, t.early);
    Extend(cfg, signal, tape, m, events, Opening(t));
    if seen.None? {
      var m1 := Machine(Calling(k), None, d + 1);
      assert Reached(cfg, signal, tape + Opening(t), m1, events);
      Extend(cfg, signal, tape + Opening(t), m1, events, [Settlement(t.race)]);
      DriveOne(cfg, m1, Settlement(t.race));
      assert tape + Opening(t) + [Settlement(t.race)] == tape + Dispatched(t);
    }
  }

  /** The same for a failed attempt: the failure is handled, and if it is retried the pause ends. */
  lemma FailureOnMachine(cfg: Config, signal: Option<Reason>, tape: seq<Stimulus>, events: seq<Event>,
                         k: Ordinal, d: nat, t: Turn)
    requires t.race.Refused?
    requires Reached(cfg, signal, tape + Dispatched(t), Machine(Holding(k, t.race.failure), None, d), events)
    ensures GivesUp(cfg, k, t.race.failure) ==>
      Reached(cfg, signal, tape + Handled(t), Machine(Ended(Failed(Text(t.race.failure))), t.late, d), events)
    ensures !GivesUp(cfg, k, t.race.failure) ==>
      var wrote := events + [Retry(k, Attempts(cfg), Delay(cfg, k), Text(t.race.failure))];
      && (t.late.Some? ==>
          Reached(cfg, signal, tape + Handled(t), Machine(Ended(Abandoned(t.late.value)), t.late, d), wrote))
      && (t.late.None? && t.cut.Some? ==>
          Reached(cfg, signal, tape + Stimuli(t),
                  Machine(Ended(Abandoned(t.cut.value.1)), Some(t.cut.value.1), d), wrote))
      && (t.late.None? && t.cut.None? ==>
          Reached(cfg, signal, tape + Stimuli(t), Machine(Starting(k + 1), None, d), wrote))
  {
    FailureHandled(cfg, signal, tape, events, k, d, t);
    assert events + [] == events;
    var (m, out) := Step(cfg, Machine(Holding(k, t.race.failure), t.late, d), Proceed);
    if m.phase.Pausing? { PauseEnded(cfg, signal, tape, events + out, k, d, t); }
  }

  lemma FailureHandled(cfg: Config, signal: Option<Reason>, tape: seq<Stimulus>, events: seq<Event>,
                       k: Ordinal, d: nat, t: Turn)
    requires t.race.Refused?
    requires Reached(cfg, signal, tape + Dispatched(t), Machine(Holding(k, t.race.failure), None, d), events)
    ensures var (m, out) := Step(cfg, Machine(Holding(k, t.race.failure), t.late, d), Proceed);
      Reached(cfg, signal, tape + Handled(t), m, events + out)
  {
    var held := Machine(Holding(k, t.race.failure), None, d);
    DriveTwo(cfg, held, t.late);
    Extend(cfg, signal, tape + Dispatched(t), held, events, AbortBy(t.late) + [Proceed]);
    assert tape + Dispatched(t) + (AbortBy(t.late) + [Proceed]) == tape + Handled(t);
  }

  lemma PauseEnded(cfg: Config, signal: Option<Reason>, tape: seq<Stimulus>, events: seq<Event>, k: Ordinal, d: nat, t: Turn)
    requires Reached(cfg, signal, tape + Handled(t), Machine(Pausing(k), None, d), events)
    ensures Reached(cfg, signal, tape + Stimuli(t), Step(cfg, Machine(Pausing(k), None, d), PauseEnd(t)).0, events)
  {
    var m := Machine(Pausing(k), None, d);
    Extend(cfg, signal, tape + Handled(t), m, events, [PauseEnd(t)]);
    DriveOne(cfg, m, PauseEnd(t));
    assert tape + Handled(t) + [PauseEnd(t)] == tape + Stimuli(t);
    assert events + [] == events;
  }

  /** The ends of a turn's stages. */
  ghost predicate IsStage(t: Turn, stage: seq<Stimulus>) {
    stage == Opening(t) || stage == Dispatched(t) || stage == Handled(t) || stage == Stimuli(t)
  }

  lemma StageIsPrefix(script: nat -> Turn, k: Ordinal, n: nat, stage: seq<Stimulus>)
    requires k <= n && IsStage(script(k), stage)
    ensures Tape(script, k - 1) + stage <= Tape(script, n)
    ensures stage == Stimuli(script(k)) ==> Tape(script, k - 1) + stage == Tape(script, k)
  {
    StagesArePrefixes(script, k, n);
  }

  predicate TurnInTime(cfg: Config, k: Ordinal, calls: nat, retries: nat, tookMs: real) {
    tookMs <= calls as real * 30000.0 + (if retries == 0 then 0.0 else Delay(cfg, k))
  }

  ghost predicate AllTimely(cfg: Config, script: nat -> Turn) {
    Growing(cfg) && forall k: Ordinal :: Timely(cfg, k, script(k))
  }

  /** When every turn is timely, `calls` calls and the first `retries` pauses take at most this long. */
  ghost predicate InTime(cfg: Config, script: nat -> Turn, calls: nat, retries: nat, elapsedMs: real) {
    AllTimely(cfg, script) ==>
      elapsedMs <= calls as real * 30000.0 + SumDelays(cfg, retries)
  }

  lemma StaysInTime(cfg: Config, script: nat -> Turn, k: Ordinal, before: nat, calls: nat, retries: nat,
                    elapsedMs: real, tookMs: real)
    requires before <= calls && k - 1 <= retries <= k
    requires InTime(cfg, script, before, k - 1, elapsedMs)
    requires Growing(cfg) && Timely(cfg, k, script(k)) ==>
      TurnInTime(cfg, k, calls - before, retries - (k - 1), tookMs)
    ensures InTime(cfg, script, calls, retries, elapsedMs + tookMs)
  {
    if AllTimely(cfg, script) {
      assert Timely(cfg, k, script(k));
      assert SumDelays(cfg, k) == SumDelays(cfg, k - 1) + Delay(cfg, k);
    }
  }

  /** Where a run stands that has ended, or is about to start an attempt. */
  function PhaseOf(ended: Option<Outcome>, attempt: Ordinal): Phase {
    if ended.Some? then Ended(ended.value) else Starting(attempt)
  }

  /** One turn of the loop, up to the point where the run ends or the next attempt starts: `ended` is
      what the run returns or throws. */
  method Attempt(cfg: Config, attempt: Ordinal, turn: Turn, signal: Option<Reason>, dispatched: nat,
                 ghost initial: Option<Reason>, ghost tape: seq<Stimulus>, ghost log: seq<Event>)
    returns (ended: Option<Outcome>, aborted: Option<Reason>, dispatches: nat, wrote: seq<Event>, tookMs: real,
             ghost stage: seq<Stimulus>)
    requires Reached(cfg, initial, tape, Machine(Starting(attempt), signal, dispatched), log)
    ensures IsStage(turn, stage) && (ended.None? ==> stage == Stimuli(turn))
    ensures Reached(cfg, initial, tape + stage, Machine(PhaseOf(ended, attempt + 1), aborted, dispatches), log + wrote)
    ensures ended.None? ==> dispatches == dispatched + 1 && |wrote| == 1 && attempt < Attempts(cfg)
    ensures dispatched <= dispatches && |wrote| <= 1
    ensures Growing(cfg) && Timely(cfg, attempt, turn) ==>
      TurnInTime(cfg, attempt, dispatches - dispatched, |wrote|, tookMs)
  {
    TurnOnMachine(cfg, initial, tape, log, attempt, signal, dispatched, turn);
    assert log + [] == log;
    ended, aborted, dispatches, wrote, tookMs := None, signal, dispatched, [], 0.0;
    if aborted.None? { aborted := turn.early; }
    if aborted.Some? {
      stage := Opening(turn);
      return Some(Abandoned(aborted.value)), aborted, dispatches, wrote, tookMs, stage;
    }

    dispatches := dispatches + 1;
    tookMs := turn.callMs;
    stage := Dispatched(turn);
    if turn.race.Answered? {
      return Some(Value(turn.race.data)), aborted, dispatches, wrote, tookMs, stage;
    }
    if turn.race.Interrupted? {
      return Some(Abandoned(turn.race.reason)), Some(turn.race.reason), dispatches, wrote, tookMs, stage;
    }
    var failure := turn.race.failure;
    FailureOnMachine(cfg, initial, tape, log, attempt, dispatches, turn);
    aborted := turn.late;
    stage := Handled(turn);
    if GivesUp(cfg, attempt, failure) {
      return Some(Failed(Text(failure))), aborted, dispatches, wrote, tookMs, stage;
    }
    var delay := Delay(cfg, attempt);
    if Growing(cfg) { DelaysGrowToCap(cfg, attempt, attempt); }
    wrote := [Retry(attempt, Attempts(cfg), delay, Text(failure))];
    if aborted.Some? {
      return Some(Abandoned(aborted.value)), aborted, dispatches, wrote, tookMs, stage;
    }
    stage := Stimuli(turn);
    if turn.cut.Some? {
      tookMs := tookMs + turn.cut.value.0;
      return Some(Abandoned(turn.cut.value.1)), Some(turn.cut.value.1), dispatches, wrote, tookMs, stage;
    }
    tookMs := tookMs + MaxReal(delay, 0.0);
  }

  /** One more dispatch than retries, unless the run was abandoned in a pause or before it began. */
  predicate Tally(cfg: Config, outcome: Outcome, dispatches: nat, retries: nat) {
    (dispatches == retries + 1 || (outcome.Abandoned? && dispatches == retries))
    && dispatches <= Attempts(cfg) && retries < Attempts(cfg)
  }

  lemma RunIsTallied(cfg: Config, signal: Option<Reason>, tape: seq<Stimulus>,
                     outcome: Outcome, aborted: Option<Reason>, dispatches: nat, events: seq<Event>)
    requires Reached(cfg, signal, tape, Machine(Ended(outcome), aborted, dispatches), events)
    ensures CompleteStream(cfg, aborted, events + Closing(outcome))
    ensures Tally(cfg, outcome, dispatches, |events|)
  {
    RunWritesCompleteStream(cfg, signal, tape);
  }

  /** Where the loop stands: before attempt number `attempt`, or at the end. */
  ghost predicate SoFar(cfg: Config, signal: Option<Reason>, script: nat -> Turn, ended: Option<Outcome>, attempt: Ordinal,
                        tape: seq<Stimulus>, aborted: Option<Reason>, dispatches: nat, events: seq<Event>, elapsedMs: real) {
    && (ended.None? ==> |events| == attempt - 1 == dispatches && tape == Tape(script, attempt - 1))
    && tape <= Tape(script, Attempts(cfg))
    && Reached(cfg, signal, tape, Machine(PhaseOf(ended, attempt), aborted, dispatches), events)
    && InTime(cfg, script, dispatches, |events|, elapsedMs)
  }

  lemma OneTurn(cfg: Config, signal: Option<Reason>, script: nat -> Turn, attempt: Ordinal,
                tape: seq<Stimulus>, aborted: Option<Reason>, dispatched: nat, events: seq<Event>, elapsedMs: real,
                ended: Option<Outcome>, aborted': Option<Reason>, dispatches: nat, wrote: seq<Event>, tookMs: real,
                stage: seq<Stimulus>)
    requires SoFar(cfg, signal, script, None, attempt, tape, aborted, dispatched, events, elapsedMs)
    requires attempt <= Attempts(cfg) && IsStage(script(attempt), stage) && (ended.None? ==> stage == Stimuli(script(attempt)))
    requires Reached(cfg, signal, tape + stage, Machine(PhaseOf(ended, attempt + 1), aborted', dispatches), events + wrote)
    requires ended.None? ==> dispatches == dispatched + 1 && |wrote| == 1
    requires dispatched <= dispatches && |wrote| <= 1
    requires Growing(cfg) && Timely(cfg, attempt, script(attempt)) ==>
      TurnInTime(cfg, attempt, dispatches - dispatched, |wrote|, tookMs)
    ensures SoFar(cfg, signal, script, ended, attempt + 1, tape + stage, aborted', dispatches, events + wrote, elapsedMs + tookMs)
    ensures ended.Some? ==>
      SoFar(cfg, signal, script, ended, attempt, tape + stage, aborted', dispatches, events + wrote, elapsedMs + tookMs)
  {
    assert tape + stage <= Tape(script, Attempts(cfg)) && (ended.None? ==> tape + stage == Tape(script, attempt)) by {
      StageIsPrefix(script, attempt, Attempts(cfg), stage);
    }
    assert InTime(cfg, script, dispatches, |events + wrote|, elapsedMs + tookMs) by {
      StaysInTime(cfg, script, attempt, dispatched, dispatches, |events + wrote|, elapsedMs, tookMs);
    }
  }

  /** The loop refines the machine: what it returns, writes and dispatches is what the machine does on
      a prefix of the script's stimuli, so it ends on every script; its whole stream obeys the grammar;
      and on a timely script it ends within the call timeouts plus the backoff delays. */
  method ExecuteWithRetry(cfg: Config, signal: Option<Reason>, script: nat -> Turn)
    returns (outcome: Outcome, events: seq<Event>, aborted: Option<Reason>, dispatches: nat, elapsedMs: real,
             ghost tape: seq<Stimulus>)
    ensures tape <= Tape(script, Attempts(cfg))
    ensures Drive(cfg, Start(signal), tape) == (Machine(Ended(outcome), aborted, dispatches), events)
    ensures CompleteStream(cfg, aborted, events + Closing(outcome))
    ensures Tally(cfg, outcome, dispatches, |events|)
    ensures InTime(cfg, script, dispatches, |events|, elapsedMs)
  {
    aborted, events, dispatches, elapsedMs := signal, [], 0, 0.0;
    tape := [];
    // The guard attempt <= maxAttempts always holds here: attempt number maxAttempts ends the run.
    var attempt: Ordinal := 1;
    var ended: Option<Outcome> := None;
    while ended.None?
      invariant attempt <= Attempts(cfg)
      invariant SoFar(cfg, signal, script, ended, attempt, tape, aborted, dispatches, events, elapsedMs)
      decreases Attempts(cfg) - attempt + if ended.None? then 1 else 0
    {
      ghost var stage;
      ghost var was := (aborted, dispatches);
      var wrote, tookMs;
      ended, aborted, dispatches, wrote, tookMs, stage :=
        Attempt(cfg, attempt, script(attempt), aborted, dispatches, signal, tape, events);
      OneTurn(cfg, signal, script, attempt, tape, was.0, was.1, events, elapsedMs,
              ended, aborted, dispatches, wrote, tookMs, stage);
      tape, events, elapsedMs := tape + stage, events + wrote, elapsedMs + tookMs;
      if ended.None? { attempt := attempt + 1; }
    }
    outcome := ended.value;
    RunIsTallied(cfg, signal, tape, outcome, aborted, dispatches, events);
  }

  lemma TimesSum(dispatches: nat, k: nat, pauses: real, bound: real, elapsedMs: real)
    requires dispatches <= k && pauses <= bound && elapsedMs <= dispatches as real * 30000.0 + pauses
    ensures elapsedMs <= k as real * 30000.0 + bound
  {
  }

  /** How long any run can last: its calls cost at most the dispatcher's timeout each, its pauses at
      most the cap each, and also at most the uncapped geometric sum. */
  lemma RunTimeBounded(cfg: Config, script: nat -> Turn, outcome: Outcome, dispatches: nat, retries: nat, elapsedMs: real)
    requires AllTimely(cfg, script)
    requires Tally(cfg, outcome, dispatches, retries) && InTime(cfg, script, dispatches, retries, elapsedMs)
    ensures elapsedMs <= Attempts(cfg) as real * 30000.0 + (Attempts(cfg) - 1) as real * cfg.maxDelayMs
    ensures elapsedMs <= Attempts(cfg) as real * 30000.0 + Geometric(cfg, Attempts(cfg) - 1)
  {
    var k := Attempts(cfg);
    SumGrows(cfg, retries, k - 1);
    SumBelowGeometric(cfg, k - 1);
    TimesSum(dispatches, k, SumDelays(cfg, retries), (k - 1) as real * cfg.maxDelayMs, elapsedMs);
    TimesSum(dispatches, k, SumDelays(cfg, retries), Geometric(cfg, k - 1), elapsedMs);
  }
}
