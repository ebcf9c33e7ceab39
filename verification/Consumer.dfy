/** The Kafka consumer: routing, the retry loop with exponential back-off, and the dead-letter
    queue. */
module Consumer {
  import opened Basics
  import opened Messages
  import opened PaymentService

  datatype Subscription = Subscription(topic: string, maxRetries: Option<int>)

  /** A message as it arrives: nothing, something that is not JSON, or an envelope. */
  datatype Raw = Empty | Unparseable | Parsed(envelope: string)

  datatype DeadLetter = DeadLetter(topic: string, envelope: string, failedTopic: string, error: string, totalAttempts: int)

  const DEFAULT_MAX_RETRIES: int := 3
  const BASE_DELAY_MS: nat := 300

  /** The first subscription for a topic. */
  function FindSubscription(subscriptions: seq<Subscription>, topic: string): (s: Option<Subscription>)
    ensures s.Some? ==> exists i :: 0 <= i < |subscriptions| && subscriptions[i] == s.value
                                    && subscriptions[i].topic == topic
                                    && forall j :: 0 <= j < i ==> subscriptions[j].topic != topic
    ensures s.None? ==> forall i :: 0 <= i < |subscriptions| ==> subscriptions[i].topic != topic
  {
    match FindFirst(subscriptions, (s: Subscription) => s.topic == topic)
    case None => None
    case Some(i) => Some(subscriptions[i])
  }

  lemma EarlierSubscriptionWins(subscriptions: seq<Subscription>, s: Subscription, topic: string)
    ensures FindSubscription(subscriptions, topic).Some? ==>
              FindSubscription(subscriptions + [s], topic) == FindSubscription(subscriptions, topic)
    ensures FindSubscription(subscriptions, topic).None? ==>
              FindSubscription(subscriptions + [s], topic) == (if s.topic == topic then Some(s) else None)
  {
    var p := (s: Subscription) => s.topic == topic;
    if FindSubscription(subscriptions, topic).Some? {
      FindFirstAppend(subscriptions, [s], p);
    } else {
      assert (subscriptions + [s])[|subscriptions|] == s;
    }
  }

  /** All attempts from the first up to `n` fail. */
  predicate FailsThrough(failure: nat -> Option<string>, n: int) {
    forall a: nat :: 1 <= a <= n ==> failure(a).Some?
  }

  class KafkaConsumer {
    var subscriptions: seq<Subscription>

    constructor ()
      ensures subscriptions == []
    {
      subscriptions := [];
    }

    method Subscribe(s: Subscription)
      modifies this
      ensures subscriptions == old(subscriptions) + [s]
      ensures forall topic :: FindSubscription(subscriptions, topic) ==
                (if FindSubscription(old(subscriptions), topic).Some? then FindSubscription(old(subscriptions), topic)
                 else if s.topic == topic then Some(s) else None)
    {
      forall topic: string {
        EarlierSubscriptionWins(subscriptions, s, topic);
      }
      subscriptions := subscriptions + [s];
    }

    /** Runs the handler until it succeeds or the limit is reached. `failure(a)` is the error of
        attempt `a`, if it fails. `runs` counts handler runs, `waited` adds up the pauses, and
        `dlq` is the dead letter whose sending is attempted. */
    method Dispatch(topic: string, raw: Raw, failure: nat -> Option<string>)
      returns (runs: nat, waited: nat, dlq: Option<DeadLetter>)
      ensures !raw.Parsed? || FindSubscription(subscriptions, topic).None? ==> runs == 0 && waited == 0 && dlq.None?
      ensures raw.Parsed? && FindSubscription(subscriptions, topic).Some? ==>
                var own := FindSubscription(subscriptions, topic).value.maxRetries;
                var m := if own.Some? then own.value else 3;
                && (m < 1 ==> runs == 0 && waited == 0 && dlq.None?)
                && (m >= 1 ==>
                      && 1 <= runs <= m
                      && FailsThrough(failure, runs - 1)
                      && (dlq.None? <==> failure(runs).None?)
                      && (dlq.Some? <==> FailsThrough(failure, m))
                      && (dlq.Some? ==> runs == m && failure(m).Some?)
                      && (dlq.Some? ==> dlq == Some(DeadLetter(topic + ".dlq", raw.envelope, topic, failure(m).value, m)))
                      && waited == 300 * (Pow2(runs - 1) - 1)
                      && waited <= 300 * (Pow2(m - 1) - 1))
    {
      runs, waited, dlq := 0, 0, None;
      if !raw.Parsed? {
        return;
      }
      var sub := FindSubscription(subscriptions, topic);
      if sub.None? {
        return;
      }
      var maxRetries := if sub.value.maxRetries.Some? then sub.value.maxRetries.value else DEFAULT_MAX_RETRIES;
      var attempt := 1;
      while attempt <= maxRetries
        invariant 1 <= attempt && (maxRetries >= 1 ==> attempt <= maxRetries)
        invariant maxRetries < 1 ==> attempt == 1
        invariant runs == attempt - 1 && dlq.None?
        invariant FailsThrough(failure, attempt - 1)
        invariant waited == BASE_DELAY_MS * (Pow2(attempt - 1) - 1)
        decreases maxRetries - attempt
      {
        runs := runs + 1;
        Pow2Monotone(attempt - 1, maxRetries - 1);
        match failure(attempt) {
          case None => return;
          case Some(error) =>
            if attempt == maxRetries {
              dlq := Some(DeadLetter(topic + ".dlq", raw.envelope, topic, error, maxRetries));
              return;
            }
            waited := waited + BASE_DELAY_MS * Pow2(attempt - 1);
        }
        attempt := attempt + 1;
      }
    }

    /** The same loop when the handler is payment-service's. However the attempts commit, are
        rolled back or are reported, wallets, payment rows and stored replies are those of the
        first attempt that committed, if any did. */
    method DispatchPayment(topic: string, raw: Raw, deliveries: nat -> Delivery, db: PaymentDb, command: Message)
      returns (after: PaymentDb, runs: nat, dlq: Option<DeadLetter>)
      requires command.ProcessPayment?
      ensures !raw.Parsed? || FindSubscription(subscriptions, topic).None? ==> runs == 0 && after == db && dlq.None?
      ensures raw.Parsed? && FindSubscription(subscriptions, topic).Some? ==>
                var own := FindSubscription(subscriptions, topic).value.maxRetries;
                var m := if own.Some? then own.value else 3;
                && (m < 1 ==> runs == 0 && after == db && dlq.None?)
                && (m >= 1 ==>
                      && 1 <= runs <= m
                      && FailsThrough(Reported(deliveries), runs - 1)
                      && (dlq.None? <==> deliveries(runs).reported.None?)
                      && (dlq.Some? <==> FailsThrough(Reported(deliveries), m)))
      ensures match FirstCommit(Tries(deliveries, runs))
              case None => after == db
              case Some(txn) => SameEffects(after, Commit(HandlePayment(db, command, txn), db))
    {
      var waited;
      runs, waited, dlq := Dispatch(topic, raw, Reported(deliveries));
      after := Deliver(db, command, Tries(deliveries, runs));
      ChargedAtMostOnce(db, command, Tries(deliveries, runs));
    }
  }

  /** One attempt at a payment command: what its transaction does, and the error the consumer is
      told of, if any. A transaction may commit and still be reported as failed. */
  datatype Delivery = Delivery(attempt: Try, reported: Option<string>)

  function Reported(deliveries: nat -> Delivery): nat -> Option<string> {
    (a: nat) => deliveries(a).reported
  }

  /** What the first `runs` attempts do; attempts are counted from one. */
  function Tries(deliveries: nat -> Delivery, runs: nat): seq<Try> {
    seq(runs, i requires 0 <= i < runs => deliveries(i + 1).attempt)
  }
}
