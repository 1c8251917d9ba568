/**
  The forwarder: a blocking send to a fixed topic, retried a bounded number of times
  with a fixed back-off. The broker and the sleeping thread are oracles indexed by the
  attempt number: `sendOk(i)` says whether the i-th send (from 0) is acknowledged,
  `interrupted(i)` whether the sleep after it is interrupted.
 */
module Forwarding {
  import opened JavaLang
  import opened Retry

  const DestinationTopic: string := "raw-data-topic_kafka"

  /** The value handed to forwardMessage: a String, null, or another object. */
  datatype Payload = TextValue(text: string) | NullValue | ObjectValue(rendered: string)

  /** One record handed to the producer. */
  datatype ProducerRecord = ProducerRecord(topic: string, key: string, value: string)

  /**
    How the call ends: a send was acknowledged; the attempts ran out (only logged);
    a sleep was interrupted (loop left early, only logged); or Thread.sleep rejected a
    negative back-off with an exception that escapes to the caller.
   */
  datatype Outcome = Delivered | Exhausted | Interrupted | SleepRejected

  /** What one call did: how many sends, how many calls to Thread.sleep, and how it ended. */
  datatype Trace = Trace(sends: nat, sleeps: nat, outcome: Outcome)

  /** String.valueOf for anything that is not already a String. */
  function MessageValue(value: Payload): string {
    match value
    case TextValue(s) => s
    case NullValue => "null"
    case ObjectValue(r) => r
  }

  /** The loop from attempt `attempts` on, as a function of the oracles. */
  function Run(attempts: nat, maxAttempts: int, backoffMs: int, sendOk: nat -> bool,
               interrupted: nat -> bool): Trace
    decreases maxAttempts - attempts
  {
    if attempts >= maxAttempts then Trace(attempts, attempts, Exhausted)
    else if sendOk(attempts) then Trace(attempts + 1, attempts, Delivered)
    else if attempts + 1 >= maxAttempts then Trace(attempts + 1, attempts, Exhausted)
    else if backoffMs < 0 then Trace(attempts + 1, attempts + 1, SleepRejected)
    else if interrupted(attempts) then Trace(attempts + 1, attempts + 1, Interrupted)
    else Run(attempts + 1, maxAttempts, backoffMs, sendOk, interrupted)
  }

  /** The whole call, from the first attempt. */
  function Forward(maxAttempts: int, backoffMs: int, sendOk: nat -> bool, interrupted: nat -> bool): Trace {
    Run(0, maxAttempts, backoffMs, sendOk, interrupted)
  }

  /** The limits in force: those of the configuration, or 3 and 1000 when it is null. */
  function EffectiveAttempts(retryConfig: RetryConfig?): Int32
    reads retryConfig
  {
    if retryConfig == null then DefaultMaxAttempts else retryConfig.maxAttempts
  }

  function EffectiveBackoff(retryConfig: RetryConfig?): Int64
    reads retryConfig
  {
    if retryConfig == null then DefaultBackoffMs else retryConfig.backoffMs
  }

  // ---------------------------------------------------------------------------
  // Properties of the retry loop
  // ---------------------------------------------------------------------------

  /**
    The shape of every run from attempt `a`: every send before the last failed and its
    sleep was not interrupted; the last send succeeded exactly when the outcome is
    Delivered; a sleep follows each failed send except the last of the budget; the
    number of sends never exceeds the budget.
   */
  lemma {:induction false} RunShape(a: nat, maxAttempts: int, backoffMs: int, sendOk: nat -> bool,
                                    interrupted: nat -> bool)
    requires a == 0 || a < maxAttempts
    requires forall i :: 0 <= i < a ==> !sendOk(i) && !interrupted(i)
    requires a > 0 ==> backoffMs >= 0
    ensures var t := Run(a, maxAttempts, backoffMs, sendOk, interrupted);
      a <= t.sends
      && (maxAttempts <= 0 ==> t == Trace(0, 0, Exhausted))
      && (maxAttempts > 0 ==> 1 <= t.sends <= maxAttempts)
      && (forall i :: 0 <= i < t.sends - 1 ==> !sendOk(i) && !interrupted(i))
      && (t.outcome == Delivered <==> t.sends > 0 && sendOk(t.sends - 1))
      && (t.outcome == Exhausted ==> t.sends == if maxAttempts <= 0 then 0 else maxAttempts)
      && (t.outcome == Delivered || t.outcome == Exhausted ==> t.sleeps == if t.sends == 0 then 0 else t.sends - 1)
      && (t.outcome == Interrupted ==> t.sleeps == t.sends && interrupted(t.sends - 1)
                                       && backoffMs >= 0 && t.sends < maxAttempts)
      && (t.outcome == SleepRejected ==> t.sleeps == t.sends == 1 && backoffMs < 0 && maxAttempts >= 2)
    decreases maxAttempts - a
  {
    if a >= maxAttempts || sendOk(a) || a + 1 >= maxAttempts || backoffMs < 0 || interrupted(a) {
    } else {
      RunShape(a + 1, maxAttempts, backoffMs, sendOk, interrupted);
    }
  }

  /** The shape lemma for a whole call. */
  lemma ForwardShape(maxAttempts: int, backoffMs: int, sendOk: nat -> bool, interrupted: nat -> bool)
    ensures var t := Forward(maxAttempts, backoffMs, sendOk, interrupted);
      (maxAttempts <= 0 ==> t == Trace(0, 0, Exhausted))
      && (maxAttempts > 0 ==> 1 <= t.sends <= maxAttempts)
      && (forall i :: 0 <= i < t.sends - 1 ==> !sendOk(i) && !interrupted(i))
      && (t.outcome == Delivered <==> t.sends > 0 && sendOk(t.sends - 1))
      && (t.outcome == Delivered || t.outcome == Exhausted ==> t.sleeps == if t.sends == 0 then 0 else t.sends - 1)
      && (t.outcome == Interrupted ==> t.sleeps == t.sends && interrupted(t.sends - 1))
      && (t.outcome == SleepRejected ==> t.sleeps == t.sends == 1 && backoffMs < 0)
  {
    RunShape(0, maxAttempts, backoffMs, sendOk, interrupted);
  }

  /**
    With an acknowledged send at attempt k, no earlier success and no interrupted or
    rejected sleep, the call makes exactly k + 1 sends and k sleeps.
   */
  lemma {:induction false} FirstSuccessStops(a: nat, k: nat, maxAttempts: int, backoffMs: int,
                                             sendOk: nat -> bool, interrupted: nat -> bool)
    requires a <= k < maxAttempts && sendOk(k) && backoffMs >= 0
    requires forall i :: a <= i < k ==> !sendOk(i) && !interrupted(i)
    ensures Run(a, maxAttempts, backoffMs, sendOk, interrupted) == Trace(k + 1, k, Delivered)
    decreases k - a
  {
    if a < k {
      FirstSuccessStops(a + 1, k, maxAttempts, backoffMs, sendOk, interrupted);
    }
  }

  /** When every send fails and no sleep is interrupted: maxAttempts sends, maxAttempts - 1 sleeps. */
  lemma {:induction false} AllFailuresExhaust(a: nat, maxAttempts: int, backoffMs: int,
                                              sendOk: nat -> bool, interrupted: nat -> bool)
    requires a < maxAttempts && backoffMs >= 0
    requires forall i :: a <= i < maxAttempts ==> !sendOk(i) && !interrupted(i)
    ensures Run(a, maxAttempts, backoffMs, sendOk, interrupted) == Trace(maxAttempts, maxAttempts - 1, Exhausted)
    decreases maxAttempts - a
  {
    if a + 1 < maxAttempts {
      AllFailuresExhaust(a + 1, maxAttempts, backoffMs, sendOk, interrupted);
    }
  }

  /** A negative back-off escapes as an exception after the first failed send, when a retry is due. */
  lemma NegativeBackoffEscapes(maxAttempts: int, backoffMs: int, sendOk: nat -> bool, interrupted: nat -> bool)
    requires maxAttempts >= 2 && backoffMs < 0 && !sendOk(0)
    ensures Forward(maxAttempts, backoffMs, sendOk, interrupted) == Trace(1, 1, SleepRejected)
  {
  }

  // ---------------------------------------------------------------------------
  // The forwarder
  // ---------------------------------------------------------------------------

  /**
    forwardMessage(key, value, retryConfig): every send carries the same record to the
    destination topic, each sleep asks for the configured back-off, and counts and
    outcome are those of Forward under the effective limits.
   */
  method ForwardMessage(key: string, value: Payload, retryConfig: RetryConfig?,
                        sendOk: nat -> bool, interrupted: nat -> bool)
    returns (sent: seq<ProducerRecord>, sleeps: seq<int>, outcome: Outcome)
    ensures var t := Forward(EffectiveAttempts(retryConfig), EffectiveBackoff(retryConfig), sendOk, interrupted);
      |sent| == t.sends && |sleeps| == t.sleeps && outcome == t.outcome
    ensures forall i :: 0 <= i < |sent| ==> sent[i] == ProducerRecord(DestinationTopic, key, MessageValue(value))
    ensures forall i :: 0 <= i < |sleeps| ==> sleeps[i] == EffectiveBackoff(retryConfig)
  {
    var config: RetryConfig;
    if retryConfig == null {
      config := new RetryConfig.WithValues(3, 1000);
    } else {
      config := retryConfig;
    }
    var attempts := 0;
    var messageValue := MessageValue(value);
    var record := ProducerRecord(DestinationTopic, key, messageValue);
    sent, sleeps := [], [];
    while attempts < config.maxAttempts
      invariant 0 <= attempts && (attempts == 0 || attempts < config.maxAttempts)
      invariant |sent| == attempts && |sleeps| == attempts
      invariant forall i :: 0 <= i < |sent| ==> sent[i] == record
      invariant forall i :: 0 <= i < |sleeps| ==> sleeps[i] == config.backoffMs
      invariant Run(attempts, config.maxAttempts, config.backoffMs, sendOk, interrupted)
             == Run(0, config.maxAttempts, config.backoffMs, sendOk, interrupted)
      decreases config.maxAttempts - attempts
    {
      sent := sent + [record];
      if sendOk(attempts) {
        return sent, sleeps, Delivered;
      }
      attempts := attempts + 1;
      if attempts < config.maxAttempts {
        sleeps := sleeps + [config.backoffMs as int];
        if config.backoffMs < 0 {
          return sent, sleeps, SleepRejected;
        }
        if interrupted(attempts - 1) {
          return sent, sleeps, Interrupted;
        }
      } else {
        return sent, sleeps, Exhausted;
      }
    }
    outcome := Exhausted;
  }

  /** forwardMessage(key, value): the defaults, three attempts one second apart. */
  method ForwardMessageWithDefaults(key: string, value: Payload, sendOk: nat -> bool, interrupted: nat -> bool)
    returns (sent: seq<ProducerRecord>, sleeps: seq<int>, outcome: Outcome)
    ensures var t := Forward(3, 1000, sendOk, interrupted);
      |sent| == t.sends && |sleeps| == t.sleeps && outcome == t.outcome
    ensures 1 <= |sent| <= 3 && |sleeps| <= 2 && outcome != SleepRejected
    ensures forall i :: 0 <= i < |sent| ==> sent[i] == ProducerRecord(DestinationTopic, key, MessageValue(value))
    ensures forall i :: 0 <= i < |sleeps| ==> sleeps[i] == 1000
  {
    sent, sleeps, outcome := ForwardMessage(key, value, null, sendOk, interrupted);
    ForwardShape(3, 1000, sendOk, interrupted);
  }
}
