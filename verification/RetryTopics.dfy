/** The producers and the error router that work on the topics in place
    (sendToDlq.ts, retry.producer.ts, retry.handler.ts, and the failure path of retry.consumer.ts). */
module RetryTopics {
  import opened Collections
  import opened RetryLadder
  import opened RetryPolicy

  datatype Envelope = Envelope(eventId: string, aggregateType: AggregateType, retryCount: nat, createdAt: int,
                               lastError: string, originalTopic: string)

  datatype Thrown = Thrown(failure: Failure, message: string)

  type Topics = map<string, seq<Envelope>>

  function Contents(ts: Topics, topic: string): seq<Envelope> { if topic in ts then ts[topic] else [] }

  function Appended(ts: Topics, topic: string, e: Envelope): Topics { ts[topic := Contents(ts, topic) + [e]] }

  function DlqOf(topic: string): string { topic + ".dlq" }

  /** The level a message goes to, if its aggregate type and count have one. */
  function LevelFor(e: Envelope): Option<RetryLevel> {
    match ResolveRetryPolicy(e.aggregateType)
    case None => None
    case Some(levels) => if e.retryCount < |levels| then Some(levels[e.retryCount]) else None
  }

  /** One topic has one more envelope at its end; nothing else has changed anywhere. */
  ghost predicate Gains(before: Topics, after: Topics, topic: string, e: Envelope) {
    forall t: string :: Contents(after, t) == Contents(before, t) + if t == topic then [e] else []
  }

  lemma SuffixEnds(i: nat)
    requires i < 5
    ensures |Suffix(i)| == 8 && Suffix(i)[7] in {'1', '2', '3', '4', '5'}
  {}

  lemma LevelTopicsEndInDigits(topic: string)
    requires Subscribed(topic)
    ensures |topic| > 0 && topic[|topic| - 1] in {'1', '2', '3', '4', '5'}
  {
    var a :| a in SubscribedAggregates() && TopicOf(a, topic);
    var levels := ResolveRetryPolicy(a).value;
    var l :| l in levels && l.topic == topic;
    var i :| 0 <= i < |levels| && levels[i] == l;
    LevelTopic(a, 0);
    LevelTopic(a, i);
    SuffixEnds(i);
    assert topic == BaseName(a) + Suffix(i);
  }

  /** A dead letter is out of the retry consumer's sight, whatever topic it comes from. */
  lemma DeadLettersAreNotRetried(baseTopic: string)
    ensures !Subscribed(DlqOf(baseTopic))
  {
    var t := DlqOf(baseTopic);
    assert t[|t| - 1] == ".dlq"[3];
    if Subscribed(t) { LevelTopicsEndInDigits(t); }
  }

  /** What an error of a main consumer does to the topics: a transient one puts the event, with its count, on
      the level of that count, stamped now; anything else, or a send that is impossible, makes it a dead
      letter, which notes the error unless the send to the level had thrown. */
  ghost predicate FailedOnMain(before: Topics, after: Topics, topic: string, e: Envelope, error: Thrown, now: int,
                               up: bool, dlqUp: bool)
  {
    var threw := ResolveRetryPolicy(e.aggregateType).None? || (LevelFor(e).Some? && !up);
    if error.failure.Transient? && LevelFor(e).Some? && up then
      Gains(before, after, LevelFor(e).value.topic,
            Envelope(e.eventId, e.aggregateType, e.retryCount, now, error.message, topic))
    else if !dlqUp then after == before
    else if error.failure.Transient? && threw then Gains(before, after, DlqOf(topic), e)
    else
      Gains(before, after, DlqOf(topic),
            Envelope(e.eventId, e.aggregateType, e.retryCount, e.createdAt, error.message, e.originalTopic))
  }

  /** What the retry consumer does to the topics: a message at the last level is dead unprocessed, a failed
      one goes to the level of its next count, stamped now, with the base topic it came with. */
  ghost predicate HandledOnLevel(before: Topics, after: Topics, e: Envelope, p: Processor, granted: bool,
                                 outcome: Outcome, message: string, now: int, up: bool, dlqUp: bool)
  {
    var count := e.retryCount + 1;
    if count >= |RegisteredLevels(p)| then
      if dlqUp then Gains(before, after, DlqOf(e.originalTopic), e) else after == before
    else if !granted || outcome.Success? || ResolveRetryPolicy(e.aggregateType).None? || !up then after == before
    else
      var levels := ResolveRetryPolicy(e.aggregateType).value;
      && count < |levels|
      && Gains(before, after, levels[count].topic,
               Envelope(e.eventId, e.aggregateType, count, now, message, e.originalTopic))
  }

  /** The broker; `up` and `dlqUp` say whether a send goes through. */
  class Broker {
    var topics: Topics

    constructor ()
      ensures topics == map[]
    {
      topics := map[];
    }

    /** Never throws: a failed send is only logged. Nothing that the retry consumer reads is touched. */
    method SendToDLQ(baseTopic: string, e: Envelope, dlqUp: bool)
      modifies this
      ensures dlqUp ==> Gains(old(topics), topics, DlqOf(baseTopic), e)
      ensures !dlqUp ==> topics == old(topics)
      ensures forall t: string :: Subscribed(t) ==> Contents(topics, t) == Contents(old(topics), t)
    {
      DeadLettersAreNotRetried(baseTopic);
      if dlqUp {
        topics := Appended(topics, DlqOf(baseTopic), e);
      }
    }

    /** Throws when the aggregate type has no policy or the send fails; a count beyond the levels
        goes to the dead-letter queue instead. */
    method SendToRetry(baseTopic: string, e: Envelope, now: int, up: bool, dlqUp: bool) returns (threw: bool)
      modifies this
      ensures threw <==> ResolveRetryPolicy(e.aggregateType).None? || (LevelFor(e).Some? && !up)
      ensures threw ==> topics == old(topics)
      ensures !threw && LevelFor(e).Some? ==>
                Gains(old(topics), topics, LevelFor(e).value.topic,
                      Envelope(e.eventId, e.aggregateType, e.retryCount, now, e.lastError, baseTopic))
      ensures !threw && LevelFor(e).None? && dlqUp ==> Gains(old(topics), topics, DlqOf(baseTopic), e)
      ensures !threw && LevelFor(e).None? && !dlqUp ==> topics == old(topics)
    {
      var policy := ResolveRetryPolicy(e.aggregateType);
      if policy.None? {
        return true;
      }
      var levels := policy.value;
      if e.retryCount >= |levels| {
        SendToDLQ(baseTopic, e, dlqUp);
        return false;
      }
      if !up {
        return true;
      }
      topics := Appended(topics, levels[e.retryCount].topic, e.(originalTopic := baseTopic, createdAt := now));
      return false;
    }

    /** One failed event leaves exactly one copy on exactly one topic, or none: the level of its
        count for a transient error that can be sent there, the dead-letter queue otherwise, and
        nowhere only if the dead-letter send fails. */
    method RetryOrDLQ(topic: string, e: Envelope, error: Thrown, now: int, up: bool, dlqUp: bool)
      modifies this
      ensures FailedOnMain(old(topics), topics, topic, e, error, now, up, dlqUp)
    {
      var noted := e.(lastError := error.message);
      if error.failure.Permanent? {
        SendToDLQ(topic, noted, dlqUp);
        return;
      }
      if error.failure.Transient? {
        assert LevelFor(noted) == LevelFor(e);
        var threw := SendToRetry(topic, noted, now, up, dlqUp);
        if threw {
          SendToDLQ(topic, e, dlqUp);
        }
        return;
      }
      SendToDLQ(topic, noted, dlqUp);
    }

    /** The retry consumer's handler: a message at the last level is dead before it is processed, a
        skipped or successful one publishes nothing, and a failed one is published on the level of its
        next count, whatever the error was. If that is impossible the handler throws, nothing is
        published and the message stays uncommitted. */
    method OnRetryMessage(e: Envelope, p: Processor, granted: bool, outcome: Outcome, message: string, now: int,
                          up: bool, dlqUp: bool)
      returns (threw: bool)
      modifies this
      ensures threw <==>
                && e.retryCount + 1 < |RegisteredLevels(p)| && granted && outcome.Fails?
                && (ResolveRetryPolicy(e.aggregateType).None? || !up)
      ensures HandledOnLevel(old(topics), topics, e, p, granted, outcome, message, now, up, dlqUp)
    {
      var nextRetryCount := e.retryCount + 1;
      if nextRetryCount >= |RegisteredLevels(p)| {
        SendToDLQ(e.originalTopic, e, dlqUp);
        return false;
      }
      if !granted || outcome.Success? {
        return false;
      }
      if ResolveRetryPolicy(e.aggregateType).Some? { EveryLadderIsWellFormed(p, e.aggregateType); }
      var next := e.(retryCount := nextRetryCount, lastError := message, createdAt := now);
      threw := SendToRetry(e.originalTopic, next, now, up, dlqUp);
    }
  }
}
