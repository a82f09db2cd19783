/**
 * The consumer's error-recovery policy: what happens to a delivered message
 * after its handler ran. On success the message is completed; on failure it
 * is dead-lettered, or, under the exponential-backoff strategy, re-published
 * as a delayed copy with its attempt counter raised by one and the original
 * completed. The attempt counter travels inside the message's custom
 * properties; it is the only state the policy reads.
 */
module ErrorRecovery {
  import opened Wrappers
  import opened JsValues
  import opened Bus

  const AttemptCountKey := "attemptCount"
  /** The strategy type that selects exponential backoff; any other type dead-letters. */
  const ExponentialBackoffType := "exponentialBackoff"
  const DeadLetterReason := "DeadLetterError"
  const MaxAttemptsReason := "ExponentialBackoffMaxAttempts"
  const MaxAttemptsPrefix := "The message has reached the maximum number of attempts: "

  datatype Measure = Minutes | Seconds

  /** Backoff parameters; the factor is a natural number (fractional factors are not modelled). */
  datatype BackoffOptions = BackoffOptions(maxAttempts: int, backoffFactor: nat, measure: Measure)

  /** The `errorStrategy` a handler is registered with: its `type` string and optional backoff options. */
  datatype ErrorStrategy = ErrorStrategy(kind: string, options: Option<BackoffOptions>)

  /** How the application handler ended: it returned, or it threw an error with this message. */
  datatype HandlerOutcome = Handled | Threw(errorMessage: string)

  const DefaultBackoff := BackoffOptions(10, 2, Minutes)

  /** The options the backoff path runs with: the registered ones, or the defaults when none were given. */
  function EffectiveOptions(options: Option<BackoffOptions>): (o: BackoffOptions)
    ensures options.Some? ==> o == options.value
    ensures options.None? ==> o.maxAttempts == 10 && o.backoffFactor == 2 && o.measure == Minutes
  {
    if options.Some? then options.value else DefaultBackoff
  }

  /** Milliseconds in one unit of the measure. */
  function UnitMillis(m: Measure): nat
  {
    match m
    case Minutes => 60_000
    case Seconds => 1_000
  }

  function Pow(b: nat, e: nat): nat
    decreases e
  {
    if e == 0 then 1 else b * Pow(b, e - 1)
  }

  /** The delay before retry number `attempts + 1`: `backoffFactor ^ attempts` units, in milliseconds. */
  function BackoffDelay(o: BackoffOptions, attempts: nat): nat
  {
    Pow(o.backoffFactor, attempts) * UnitMillis(o.measure)
  }

  /**
   * The attempt counter reads as an integer: when it is truthy it is a
   * positive number (the source casts it to `number`; negative counts would
   * make the delay fractional and are not modelled).
   */
  predicate AttemptCountReadable(m: ReceivedMessage)
  {
    var v := Lookup(m.applicationProperties, AttemptCountKey);
    Truthy(v) ==> v.Num? && v.num > 0
  }

  /** `applicationProperties.attemptCount || 0`. */
  function CurrentAttempts(m: ReceivedMessage): (c: nat)
    requires AttemptCountReadable(m)
    ensures Truthy(Lookup(m.applicationProperties, AttemptCountKey)) ==>
              Lookup(m.applicationProperties, AttemptCountKey) == Num(c)
    ensures !Truthy(Lookup(m.applicationProperties, AttemptCountKey)) ==> c == 0
  {
    var v := Lookup(m.applicationProperties, AttemptCountKey);
    if Truthy(v) then v.num else 0
  }

  /**
   * `{...message, applicationProperties: {...message.applicationProperties, attemptCount: n + 1}}`:
   * the message with its counter raised by one and everything else kept.
   */
  function RetryCopy(m: ReceivedMessage): (copy: ReceivedMessage)
    requires AttemptCountReadable(m)
    ensures copy.fields == m.fields && copy.remoteSettled == m.remoteSettled
    ensures copy.applicationProperties.Keys == m.applicationProperties.Keys + {AttemptCountKey}
    ensures forall k :: k in m.applicationProperties && k != AttemptCountKey ==>
              copy.applicationProperties[k] == m.applicationProperties[k]
    ensures AttemptCountReadable(copy) && CurrentAttempts(copy) == CurrentAttempts(m) + 1
  {
    m.(applicationProperties := m.applicationProperties[AttemptCountKey := Num(CurrentAttempts(m) + 1)])
  }

  /** The dead-letter description naming the attempt limit. */
  function MaxAttemptsDescription(maxAttempts: int): (d: string)
    ensures |d| > |MaxAttemptsPrefix| && d[..|MaxAttemptsPrefix|] == MaxAttemptsPrefix
    ensures d[|MaxAttemptsPrefix|..] == DecimalString(maxAttempts)
  {
    MaxAttemptsPrefix + DecimalString(maxAttempts)
  }

  /** The description determines the limit it names. */
  lemma MaxAttemptsDescriptionNamesLimit(a: int, b: int)
    requires MaxAttemptsDescription(a) == MaxAttemptsDescription(b)
    ensures a == b
  {
    var da, db := MaxAttemptsDescription(a), MaxAttemptsDescription(b);
    assert da[|MaxAttemptsPrefix|..] == db[|MaxAttemptsPrefix|..];
    DecimalStringInjective(a, b);
  }

  /**
   * The retry pattern: open a throw-away sender for `topic`, schedule `copy`
   * for time `at`, complete the original `m`, close the sender, in that order.
   */
  predicate Rescheduled(effects: seq<Effect>, topic: string, receiver: Receiver,
                        m: ReceivedMessage, copy: ReceivedMessage, at: int)
  {
    effects == [CreateSender(Sender(topic)), ScheduleCopies(Sender(topic), [copy], at),
                Complete(receiver, m), CloseSender(Sender(topic))]
  }

  /** Whether some effect dead-letters a message. */
  predicate DeadLetters(effects: seq<Effect>)
  {
    exists i :: 0 <= i < |effects| && effects[i].DeadLetter?
  }

  /** Whether some effect schedules a message. */
  predicate Schedules(effects: seq<Effect>)
  {
    exists i :: 0 <= i < |effects| && (effects[i].ScheduleCopies? || effects[i].ScheduleEnvelope?)
  }

  /**
   * `handleExponentialBackoff`: dead-letter when the next attempt would
   * reach the limit (an equality test), otherwise reschedule a raised copy
   * `backoffFactor ^ attempts` units after `now`.
   */
  function HandleExponentialBackoff(topic: string, receiver: Receiver, m: ReceivedMessage,
                                    options: Option<BackoffOptions>, now: int): (effects: seq<Effect>)
    requires AttemptCountReadable(m)
    ensures var o := EffectiveOptions(options);
            CurrentAttempts(m) + 1 == o.maxAttempts ==>
              effects == [DeadLetter(receiver, m, MaxAttemptsReason, MaxAttemptsDescription(o.maxAttempts))]
    ensures var o := EffectiveOptions(options);
            CurrentAttempts(m) + 1 != o.maxAttempts ==>
              Rescheduled(effects, topic, receiver, m, RetryCopy(m), now + BackoffDelay(o, CurrentAttempts(m)))
  {
    var o := EffectiveOptions(options);
    var attempts := CurrentAttempts(m);
    if attempts + 1 == o.maxAttempts then
      [DeadLetter(receiver, m, MaxAttemptsReason, MaxAttemptsDescription(o.maxAttempts))]
    else
      var sender := Sender(topic);
      [CreateSender(sender), ScheduleCopies(sender, [RetryCopy(m)], now + BackoffDelay(o, attempts)),
       Complete(receiver, m), CloseSender(sender)]
  }

  /** A failure under the exponential-backoff strategy: the only path that reads the attempt counter. */
  predicate NeedsBackoff(strategy: ErrorStrategy, outcome: HandlerOutcome)
  {
    outcome.Threw? && strategy.kind == ExponentialBackoffType
  }

  /**
   * The `processMessage` callback bound to one handler. `own` is the receiver
   * the callback was created with; `registered` is what the server's pool
   * holds for the topic, which the backoff path looks up and uses.
   */
  function ProcessEffects(topic: string, strategy: ErrorStrategy, own: Receiver, registered: Option<Receiver>,
                          m: ReceivedMessage, outcome: HandlerOutcome, now: int): (effects: seq<Effect>)
    requires NeedsBackoff(strategy, outcome) ==> registered.Some? && AttemptCountReadable(m)
    ensures outcome.Handled? ==> !DeadLetters(effects) && !Schedules(effects)
    ensures outcome.Handled? && !m.remoteSettled ==> effects == [Complete(own, m)]
    ensures outcome.Handled? && m.remoteSettled ==> effects == []
    ensures outcome.Threw? && strategy.kind != ExponentialBackoffType ==>
              effects == [DeadLetter(own, m, DeadLetterReason, outcome.errorMessage)] && !Schedules(effects)
    ensures NeedsBackoff(strategy, outcome) ==>
              effects == HandleExponentialBackoff(topic, registered.value, m, strategy.options, now)
  {
    match outcome
    case Handled => if m.remoteSettled then [] else [Complete(own, m)]
    case Threw(error) =>
      if strategy.kind == ExponentialBackoffType then
        HandleExponentialBackoff(topic, registered.value, m, strategy.options, now)
      else
        [DeadLetter(own, m, DeadLetterReason, error)]
  }

  // -----------------------------------------------------------------------
  // Properties of the policy
  // -----------------------------------------------------------------------

  /**
   * Under exponential backoff a failed message is dead-lettered exactly when
   * its next attempt would equal the limit; then nothing is scheduled and
   * nothing completed, otherwise the original is completed exactly once and
   * never dead-lettered.
   */
  lemma BackoffDeadLettersIffLimit(topic: string, receiver: Receiver, m: ReceivedMessage,
                                   options: Option<BackoffOptions>, now: int)
    requires AttemptCountReadable(m)
    ensures var effects := HandleExponentialBackoff(topic, receiver, m, options, now);
            DeadLetters(effects) <==> CurrentAttempts(m) + 1 == EffectiveOptions(options).maxAttempts
    ensures var effects := HandleExponentialBackoff(topic, receiver, m, options, now);
            DeadLetters(effects) ==>
              !Schedules(effects) && forall i :: 0 <= i < |effects| ==> !effects[i].Complete?
    ensures var effects := HandleExponentialBackoff(topic, receiver, m, options, now);
            !DeadLetters(effects) ==>
              Schedules(effects) && multiset(effects)[Complete(receiver, m)] == 1
  {
    var effects := HandleExponentialBackoff(topic, receiver, m, options, now);
    if CurrentAttempts(m) + 1 == EffectiveOptions(options).maxAttempts {
      assert effects[0].DeadLetter?;
    } else {
      assert effects[1].ScheduleCopies?;
      assert !DeadLetters(effects) by {
        forall i | 0 <= i < |effects| ensures !effects[i].DeadLetter? { }
      }
    }
  }

  /**
   * A message is settled exactly once per delivery (completed or
   * dead-lettered), except a successfully handled message the remote side
   * already settled, which is not settled again.
   */
  lemma SettledExactlyOnce(topic: string, strategy: ErrorStrategy, own: Receiver, registered: Option<Receiver>,
                           m: ReceivedMessage, outcome: HandlerOutcome, now: int)
    requires NeedsBackoff(strategy, outcome) ==> registered.Some? && AttemptCountReadable(m)
    ensures Settlements(ProcessEffects(topic, strategy, own, registered, m, outcome, now)) ==
            if outcome.Handled? && m.remoteSettled then 0 else 1
  {
    var effects := ProcessEffects(topic, strategy, own, registered, m, outcome, now);
    if NeedsBackoff(strategy, outcome) {
      var o := EffectiveOptions(strategy.options);
      if CurrentAttempts(m) + 1 != o.maxAttempts {
        var e1, e2, e3 := effects[..1], effects[..2], effects[..3];
        assert e1[..0] == [] && e2[..1] == e1 && e3[..2] == e2 && effects[..3] == e3;
        assert Settlements(e1) == 0;
        assert Settlements(e2) == 0;
        assert Settlements(e3) == 1;
      } else {
        assert effects[..0] == [];
      }
    } else if effects != [] {
      assert effects[..0] == [];
    }
  }

  /** The message as it arrives after `k` more failed backoff rounds, each re-publishing `RetryCopy`. */
  function Redelivered(m: ReceivedMessage, k: nat): (r: ReceivedMessage)
    requires AttemptCountReadable(m)
    ensures AttemptCountReadable(r) && CurrentAttempts(r) == CurrentAttempts(m) + k
    ensures r.fields == m.fields
    decreases k
  {
    if k == 0 then m else RetryCopy(Redelivered(m, k - 1))
  }

  /**
   * The retry ceiling: a message first published with no counter (or 0) that
   * fails every time is rescheduled on its first `maxAttempts - 1` deliveries
   * and dead-lettered on delivery number `maxAttempts`.
   */
  lemma {:induction false} RetryCeiling(topic: string, receiver: Receiver, m: ReceivedMessage,
                                        o: BackoffOptions, now: int, k: nat)
    requires AttemptCountReadable(m) && CurrentAttempts(m) == 0
    requires k < o.maxAttempts
    ensures var effects := HandleExponentialBackoff(topic, receiver, Redelivered(m, k), Some(o), now);
            && (DeadLetters(effects) <==> k == o.maxAttempts - 1)
            && (k < o.maxAttempts - 1 ==> Schedules(effects))
  {
    BackoffDeadLettersIffLimit(topic, receiver, Redelivered(m, k), Some(o), now);
  }

  /**
   * Because the limit test is an equality, a message that arrives with a
   * counter already at or past the limit is never dead-lettered by it: every
   * later delivery is rescheduled again.
   */
  lemma {:induction false} PastLimitNeverDeadLettered(topic: string, receiver: Receiver, m: ReceivedMessage,
                                                      o: BackoffOptions, now: int, k: nat)
    requires AttemptCountReadable(m) && CurrentAttempts(m) >= o.maxAttempts
    ensures var effects := HandleExponentialBackoff(topic, receiver, Redelivered(m, k), Some(o), now);
            !DeadLetters(effects) && Schedules(effects)
  {
    BackoffDeadLettersIffLimit(topic, receiver, Redelivered(m, k), Some(o), now);
  }

  /** With a factor of at least 2 each retry waits strictly longer than the one before. */
  lemma BackoffDelayGrows(o: BackoffOptions, attempts: nat)
    requires o.backoffFactor >= 2
    ensures BackoffDelay(o, attempts) < BackoffDelay(o, attempts + 1)
  {
    PowPositive(o.backoffFactor, attempts);
    assert Pow(o.backoffFactor, attempts + 1) == o.backoffFactor * Pow(o.backoffFactor, attempts);
  }

  lemma {:induction false} PowPositive(b: nat, e: nat)
    requires b >= 1
    ensures Pow(b, e) >= 1
    decreases e
  {
    if e > 0 {
      PowPositive(b, e - 1);
    }
  }

  /**
   * A worked run with `{maxAttempts: 3, backoffFactor: 2, measure: minutes}`
   * and a message that has no counter: the first failure schedules a copy
   * with counter 1 one minute later, the second a copy with counter 2 two
   * minutes later, the third dead-letters.
   */
  lemma ThreeAttemptScenario(topic: string, receiver: Receiver, body: Value, now: int)
    ensures var o := BackoffOptions(3, 2, Minutes);
            var m0 := ReceivedMessage(map[], map["body" := body], false);
            var m1 := RetryCopy(m0);
            var m2 := RetryCopy(m1);
            && m1.applicationProperties == map[AttemptCountKey := Num(1)]
            && m2.applicationProperties == map[AttemptCountKey := Num(2)]
            && HandleExponentialBackoff(topic, receiver, m0, Some(o), now)[1]
                 == ScheduleCopies(Sender(topic), [m1], now + 60_000)
            && HandleExponentialBackoff(topic, receiver, m1, Some(o), now)[1]
                 == ScheduleCopies(Sender(topic), [m2], now + 120_000)
            && HandleExponentialBackoff(topic, receiver, m2, Some(o), now)
                 == [DeadLetter(receiver, m2, MaxAttemptsReason, MaxAttemptsDescription(3))]
  {
    var o := BackoffOptions(3, 2, Minutes);
    assert Pow(2, 1) == 2 by { assert Pow(2, 0) == 1; }
  }
}
