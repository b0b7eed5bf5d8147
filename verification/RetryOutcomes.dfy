/** What a retrying run comes to, for the failures it meets: which are tried again, after how long, and
    with which outcome it ends. */
module RetryOutcomes {
  import opened Collections
  import opened Messages
  import opened RetryMachine
  import opened Backoff

  // ---------- which failures are tried again ----------

  ghost predicate Mentions(text: string, part: string) {
    exists a, b :: text == a + part + b
  }

  /** The texts by which a failure counts as transient. */
  const TRANSIENT := ["ECONNREFUSED", "ECONNRESET", "ETIMEDOUT", "timed out", "503", "Service Unavailable", "Host not connected"]

  ghost predicate Transient(f: Failure) {
    f.ErrorObject? && exists i :: 0 <= i < |TRANSIENT| && Mentions(f.message, TRANSIENT[i])
  }

  lemma MentionedAt(text: string, part: string, i: nat)
    requires i <= |text| && part <= text[i..]
    ensures Mentions(text, part)
  {
    var rest := text[i..];
    assert rest == part + rest[|part|..];
    assert text == text[..i] + rest;
    assert text[..i] + (part + rest[|part|..]) == text[..i] + part + rest[|part|..];
  }

  lemma IncludedAfter(a: string, part: string, b: string)
    ensures Includes(a + part + b, part)
  {
    var text := a + part + b;
    assert text[|a|..] == part + b;
  }

  lemma IncludesIsMentions(text: string, part: string)
    ensures Includes(text, part) <==> Mentions(text, part)
  {
    if Includes(text, part) {
      var i :| 0 <= i <= |text| && part <= text[i..];
      MentionedAt(text, part, i);
    }
    if Mentions(text, part) {
      var a, b :| text == a + part + b;
      IncludedAfter(a, part, b);
    }
  }

  /** A failure is retryable exactly when it is an error whose message mentions one of these texts. */
  lemma RetryableIsTransient(f: Failure)
    ensures Retryable(f) <==> Transient(f)
  {
    if f.ErrorObject? {
      forall i | 0 <= i < |TRANSIENT| ensures Includes(f.message, TRANSIENT[i]) <==> Mentions(f.message, TRANSIENT[i]) {
        IncludesIsMentions(f.message, TRANSIENT[i]);
      }
      assert TRANSIENT[0] == "ECONNREFUSED" && TRANSIENT[1] == "ECONNRESET" && TRANSIENT[2] == "ETIMEDOUT";
      assert TRANSIENT[3] == "timed out" && TRANSIENT[4] == "503" && TRANSIENT[5] == "Service Unavailable";
      assert TRANSIENT[6] == "Host not connected";
    }
  }

  // ---------- how long the pauses are ----------

  /** The first pause is the initial delay, and each further one the multiple of the one before, both up
      to the cap. */
  lemma DelaysMultiply(cfg: Config, k: Ordinal)
    requires Growing(cfg)
    ensures Delay(cfg, 1) == MinReal(cfg.initialDelayMs, cfg.maxDelayMs)
    ensures Delay(cfg, k + 1) == MinReal(cfg.backoffMultiplier * Delay(cfg, k), cfg.maxDelayMs)
  {
    var c, b, x := cfg.initialDelayMs, cfg.backoffMultiplier, Scaled(cfg.initialDelayMs, cfg.backoffMultiplier, k - 1);
    FirstScaled(c, b);
    NextScaled(c, b, k - 1);
    ScaledGrows(c, b, k - 1, k - 1);
    if x > cfg.maxDelayMs { Multiples(b, cfg.maxDelayMs, x); }
  }

  lemma FirstScaled(c: real, b: real)
    ensures Scaled(c, b, 0) == c
  {
  }

  lemma NextScaled(c: real, b: real, n: nat)
    ensures Scaled(c, b, n + 1) == b * Scaled(c, b, n)
  {
    var p := Pow(b, n);
    assert c * (b * p) == b * (c * p);
  }

  lemma Multiples(b: real, cap: real, x: real)
    requires b >= 1.0 && 0.0 <= cap <= x
    ensures cap <= b * cap && cap <= b * x
  {
    assert (b - 1.0) * cap >= 0.0;
    assert (b - 1.0) * x >= 0.0;
  }

  // ---------- what a run comes to ----------

  /** The stimuli of one attempt that fails and is tried again. */
  function FailedTurn(f: Failure): seq<Stimulus> {
    [Proceed, CallRejects(f), Proceed, TimerFires]
  }

  function FailedTurns(fs: seq<Failure>): seq<Stimulus> {
    if fs == [] then [] else FailedTurns(fs[..|fs| - 1]) + FailedTurn(fs[|fs| - 1])
  }

  /** The configuration lets a run go on after each of these failures. */
  ghost predicate TriesAgain(cfg: Config, fs: seq<Failure>) {
    |fs| < Attempts(cfg) && (cfg.onlyRetryable ==> forall i :: 0 <= i < |fs| ==> Transient(fs[i]))
  }

  /** The retry events of these failures: numbered from 1, each with its pause and its failure's text. */
  ghost predicate RetriesOf(cfg: Config, fs: seq<Failure>, events: seq<Event>) {
    && |events| == |fs|
    && forall i :: 0 <= i < |fs| ==> events[i] == Retry(i + 1, Attempts(cfg), Delay(cfg, i + 1), Text(fs[i]))
  }

  lemma OneFailedTurn(cfg: Config, k: Ordinal, d: nat, f: Failure)
    requires k < Attempts(cfg) && (cfg.onlyRetryable ==> Transient(f))
    ensures Drive(cfg, Machine(Starting(k), None, d), FailedTurn(f))
      == (Machine(Starting(k + 1), None, d + 1), [Retry(k, Attempts(cfg), Delay(cfg, k), Text(f))])
  {
    RetryableIsTransient(f);
    var m := Machine(Starting(k), None, d);
    var m1 := Machine(Calling(k), None, d + 1);
    var m2 := Machine(Holding(k, f), None, d + 1);
    var m3 := Machine(Pausing(k), None, d + 1);
    QuietStep(cfg, m, Proceed, m1, [CallRejects(f), Proceed, TimerFires]);
    QuietStep(cfg, m1, CallRejects(f), m2, [Proceed, TimerFires]);
    QuietStep(cfg, m3, TimerFires, Machine(Starting(k + 1), None, d + 1), []);
    LoudStep(cfg, m2, m3, Retry(k, Attempts(cfg), Delay(cfg, k), Text(f)), [TimerFires]);
    assert FailedTurn(f) == [Proceed] + [CallRejects(f), Proceed, TimerFires];
    assert [CallRejects(f), Proceed, TimerFires] == [CallRejects(f)] + [Proceed, TimerFires];
    assert [Proceed, TimerFires] == [Proceed] + [TimerFires] && [TimerFires] == [TimerFires] + [];
  }

  lemma QuietStep(cfg: Config, m: Machine, s: Stimulus, m1: Machine, rest: seq<Stimulus>)
    requires Step(cfg, m, s) == (m1, [])
    ensures Drive(cfg, m, [s] + rest) == Drive(cfg, m1, rest)
  {
    DriveFrom(cfg, m, s, rest);
    assert [] + Drive(cfg, m1, rest).1 == Drive(cfg, m1, rest).1;
  }

  lemma LoudStep(cfg: Config, m: Machine, m1: Machine, e: Event, rest: seq<Stimulus>)
    requires Step(cfg, m, Proceed) == (m1, [e]) && Drive(cfg, m1, rest).1 == []
    ensures Drive(cfg, m, [Proceed] + rest) == (Drive(cfg, m1, rest).0, [e])
  {
    DriveFrom(cfg, m, Proceed, rest);
    Nothing([e]);
  }

  lemma RetriesSnoc(cfg: Config, past: seq<Failure>, last: Failure, events: seq<Event>)
    requires RetriesOf(cfg, past, events)
    ensures RetriesOf(cfg, past + [last],
      events + [Retry(|past| + 1, Attempts(cfg), Delay(cfg, |past| + 1), Text(last))])
  {
  }

  lemma TriesSnoc(cfg: Config, past: seq<Failure>, last: Failure)
    requires TriesAgain(cfg, past + [last])
    ensures TriesAgain(cfg, past) && |past| + 1 < Attempts(cfg) && (cfg.onlyRetryable ==> Transient(last))
  {
    assert (past + [last])[|past|] == last && forall i :: 0 <= i < |past| ==> (past + [last])[i] == past[i];
  }

  lemma TurnsSnoc(past: seq<Failure>, last: Failure)
    ensures FailedTurns(past + [last]) == FailedTurns(past) + FailedTurn(last)
  {
    assert (past + [last])[..|past|] == past;
  }

  lemma FailedOnceMore(cfg: Config, past: seq<Failure>, last: Failure, events: seq<Event>)
    requires TriesAgain(cfg, past + [last]) && RetriesOf(cfg, past, events)
    requires Drive(cfg, Start(None), FailedTurns(past)) == (Machine(Starting(|past| + 1), None, |past|), events)
    ensures var (m, more) := Drive(cfg, Start(None), FailedTurns(past + [last]));
      m == Machine(Starting(|past| + 2), None, |past| + 1) && RetriesOf(cfg, past + [last], more)
  {
    TriesSnoc(cfg, past, last);
    TurnsSnoc(past, last);
    OneFailedTurn(cfg, |past| + 1, |past|, last);
    RetriesSnoc(cfg, past, last, events);
    DriveAppend(cfg, Start(None), FailedTurns(past), FailedTurn(last));
  }

  lemma {:induction false} FailedSoFar(cfg: Config, fs: seq<Failure>)
    requires TriesAgain(cfg, fs)
    ensures var (m, events) := Drive(cfg, Start(None), FailedTurns(fs));
      m == Machine(Starting(|fs| + 1), None, |fs|) && RetriesOf(cfg, fs, events)
    decreases |fs|
  {
    if fs != [] {
      var past, last := fs[..|fs| - 1], fs[|fs| - 1];
      assert fs == past + [last];
      TriesSnoc(cfg, past, last);
      FailedSoFar(cfg, past);
      FailedOnceMore(cfg, past, last, Drive(cfg, Start(None), FailedTurns(past)).1);
    }
  }

  /** A run whose attempts fail transiently until one is answered: it writes one retry for each failure and
      ends with that answer, having dispatched once more than it failed. */
  lemma RetriesThenSucceeds(cfg: Config, fs: seq<Failure>, data: Data)
    requires TriesAgain(cfg, fs)
    ensures var (m, events) := Drive(cfg, Start(None), FailedTurns(fs) + [Proceed, CallResolves(data)]);
      m.phase == Ended(Value(data)) && m.dispatches == |fs| + 1 && RetriesOf(cfg, fs, events)
  {
    FailedSoFar(cfg, fs);
    var m := Machine(Starting(|fs| + 1), None, |fs|);
    AttemptThen(cfg, m, CallResolves(data));
    DriveAppend(cfg, Start(None), FailedTurns(fs), [Proceed, CallResolves(data)]);
    Nothing(Drive(cfg, Start(None), FailedTurns(fs)).1);
  }

  lemma Nothing(events: seq<Event>)
    ensures events + [] == events
  {
  }

  lemma AttemptThen(cfg: Config, m: Machine, s: Stimulus)
    requires m.phase.Starting? && m.signal.None?
    ensures var called := Machine(Calling(m.phase.attempt), None, m.dispatches + 1);
      Drive(cfg, m, [Proceed, s]) == Step(cfg, called, s)
  {
    var called := Machine(Calling(m.phase.attempt), None, m.dispatches + 1);
    assert [Proceed, s] == [Proceed] + [s];
    QuietStep(cfg, m, Proceed, called, [s]);
    DriveOnly(cfg, called, s);
  }

  lemma DriveOnly(cfg: Config, m: Machine, s: Stimulus)
    ensures Drive(cfg, m, [s]) == Step(cfg, m, s)
  {
    assert [s] == [s] + [];
    DriveFrom(cfg, m, s, []);
    Nothing(Step(cfg, m, s).1);
  }

  /** A run whose attempts fail transiently until one fails that ends it, because no attempt is left or
      because only transient failures are tried again and it is none: it ends with that failure's text. */
  lemma RetriesThenFails(cfg: Config, fs: seq<Failure>, last: Failure)
    requires TriesAgain(cfg, fs)
    requires |fs| + 1 == Attempts(cfg) || (cfg.onlyRetryable && !Transient(last))
    ensures var (m, events) := Drive(cfg, Start(None), FailedTurns(fs) + [Proceed, CallRejects(last), Proceed]);
      && m.phase == Ended(Failed(if last.ErrorObject? then last.message else last.rendered))
      && m.dispatches == |fs| + 1 && RetriesOf(cfg, fs, events)
  {
    FailedSoFar(cfg, fs);
    LastTurn(cfg, |fs| + 1, |fs|, last);
    DriveAppend(cfg, Start(None), FailedTurns(fs), [Proceed, CallRejects(last), Proceed]);
    Nothing(Drive(cfg, Start(None), FailedTurns(fs)).1);
  }

  lemma LastTurn(cfg: Config, k: Ordinal, d: nat, last: Failure)
    requires k == Attempts(cfg) || (cfg.onlyRetryable && !Transient(last))
    ensures Drive(cfg, Machine(Starting(k), None, d), [Proceed, CallRejects(last), Proceed])
      == (Machine(Ended(Failed(if last.ErrorObject? then last.message else last.rendered)), None, d + 1), [])
  {
    RetryableIsTransient(last);
    var m := Machine(Starting(k), None, d);
    var called, held := Machine(Calling(k), None, d + 1), Machine(Holding(k, last), None, d + 1);
    assert [Proceed, CallRejects(last), Proceed] == [Proceed] + [CallRejects(last), Proceed];
    assert [CallRejects(last), Proceed] == [CallRejects(last)] + [Proceed];
    QuietStep(cfg, m, Proceed, called, [CallRejects(last), Proceed]);
    QuietStep(cfg, called, CallRejects(last), held, [Proceed]);
    DriveOnly(cfg, held, Proceed);
  }

  // ---------- aborts ----------

  /** An abort ends a run that is waiting, for its call or for its pause, at once, as cancelled with the
      abort's reason; one about to start an attempt when it goes on; and one that holds a failure when it
      goes on, unless that failure ends it anyway. */
  lemma AbortEnds(cfg: Config, m: Machine, reason: Reason)
    requires m.signal.None? && !m.phase.Ended?
    ensures var a := Step(cfg, m, Abort(reason));
      && a.1 == [] && a.0.signal == Some(reason) && a.0.dispatches == m.dispatches
      && (m.phase.Calling? || m.phase.Pausing? ==> a.0.phase == Ended(Abandoned(reason)))
      && (m.phase.Starting? ==> Step(cfg, a.0, Proceed).0.phase == Ended(Abandoned(reason)))
      && (m.phase.Holding? && m.phase.attempt < Attempts(cfg) && (cfg.onlyRetryable ==> Transient(m.phase.failure)) ==>
            Step(cfg, a.0, Proceed).0.phase == Ended(Abandoned(reason)))
      && (m.phase.Holding? && !(m.phase.attempt < Attempts(cfg) && (cfg.onlyRetryable ==> Transient(m.phase.failure))) ==>
            Step(cfg, a.0, Proceed).0.phase == Ended(Failed(Text(m.phase.failure))))
  {
    if m.phase.Holding? { RetryableIsTransient(m.phase.failure); }
  }

  /** The defaults, and the overrides given; and at least one attempt is made. */
  lemma ResolvedFields(o: Overrides)
    ensures Attempts(Resolve(Some(o))) == if o.maxAttempts.Some? && o.maxAttempts.value > 1 then o.maxAttempts.value else 1
    ensures Resolve(None) == Config(1, 1000.0, 2.0, 30000.0, true)
    ensures var c := Resolve(Some(o));
      && c.maxAttempts == (if o.maxAttempts.Some? then o.maxAttempts.value else 1)
      && c.initialDelayMs == (if o.initialDelayMs.Some? then o.initialDelayMs.value else 1000.0)
      && c.backoffMultiplier == (if o.backoffMultiplier.Some? then o.backoffMultiplier.value else 2.0)
      && c.maxDelayMs == (if o.maxDelayMs.Some? then o.maxDelayMs.value else 30000.0)
      && c.onlyRetryable == (if o.onlyRetryable.Some? then o.onlyRetryable.value else true)
  {
  }
}
