/** The level tables of retry.policy.ts, the registry of retry.consumer.ts, and what they imply
    for the ladder and for the claims of the retry group. */
module RetryPolicy {
  import opened Collections
  import opened RetryLadder
  import C = Claims
  import R = ClaimRouting

  datatype AggregateType =
    USER | TRANSFER | KYC | PAYMENT | FUNDING | VAULT | PIN | REVERSAL | RECONCILIATION | Unlisted(name: string)

  datatype Processor = auth | transfer | projection | kyc | payment | pin | funding | vault | reversal | reconciliation

  function Levels(name: string, d1: nat, d2: nat, d3: nat, d4: nat, d5: nat): seq<RetryLevel> {
    [RetryLevel(name + ".retry.1", d1), RetryLevel(name + ".retry.2", d2), RetryLevel(name + ".retry.3", d3),
     RetryLevel(name + ".retry.4", d4), RetryLevel(name + ".retry.5", d5)]
  }

  function SlowLevels(name: string): seq<RetryLevel> { Levels(name, 5_000, 30_000, 120_000, 600_000, 3_600_000) }

  const AUTH_LEVELS := Levels("auth", 3_000, 5_000, 7_000, 9_000, 11_000)
  const TRANSFER_LEVELS := Levels("transfer", 3_000, 5_000, 7_000, 11_000, 30_000)

  function ResolveRetryPolicy(a: AggregateType): Option<seq<RetryLevel>> {
    match a
    case USER => Some(AUTH_LEVELS)
    case TRANSFER => Some(TRANSFER_LEVELS)
    case KYC => Some(SlowLevels("kyc"))
    case PAYMENT => Some(SlowLevels("payment"))
    case FUNDING => Some(SlowLevels("funding"))
    case VAULT => Some(SlowLevels("vault"))
    case PIN => Some(SlowLevels("pin"))
    case REVERSAL => Some(SlowLevels("reversal"))
    case RECONCILIATION => Some(SlowLevels("reconciliation"))
    case Unlisted(_) => None
  }

  function RegisteredLevels(p: Processor): seq<RetryLevel> {
    match p
    case auth => AUTH_LEVELS
    case transfer | projection => TRANSFER_LEVELS
    case kyc => SlowLevels("kyc")
    case payment => SlowLevels("payment")
    case pin => SlowLevels("pin")
    case funding => SlowLevels("funding")
    case vault => SlowLevels("vault")
    case reversal => SlowLevels("reversal")
    case reconciliation => SlowLevels("reconciliation")
  }

  /** Every processor under every listed aggregate type runs on a well-formed ladder of five
      levels, also where the two tables are different ones. */
  lemma EveryLadderIsWellFormed(p: Processor, a: AggregateType)
    requires ResolveRetryPolicy(a).Some?
    ensures WellFormed(Config(ResolveRetryPolicy(a).value, RegisteredLevels(p), |RegisteredLevels(p)|))
    ensures |RegisteredLevels(p)| == 5
  {}

  function AggregateOf(p: Processor): AggregateType {
    match p
    case auth => USER
    case transfer => TRANSFER
    case projection => TRANSFER
    case kyc => KYC
    case payment => PAYMENT
    case pin => PIN
    case funding => FUNDING
    case vault => VAULT
    case reversal => REVERSAL
    case reconciliation => RECONCILIATION
  }

  /** A processor is registered with the levels of the aggregate type whose events it is for. */
  lemma RegistryAgrees(p: Processor)
    ensures ResolveRetryPolicy(AggregateOf(p)) == Some(RegisteredLevels(p))
  {}

  /** The topics the retry consumer subscribes to. */
  function SubscribedAggregates(): set<AggregateType> { {USER, TRANSFER, KYC, PAYMENT, FUNDING, PIN, REVERSAL} }

  predicate Subscribed(topic: string) {
    exists a <- SubscribedAggregates() :: TopicOf(a, topic)
  }

  predicate TopicOf(a: AggregateType, topic: string) {
    ResolveRetryPolicy(a).Some? && exists l <- ResolveRetryPolicy(a).value :: l.topic == topic
  }

  function BaseName(a: AggregateType): string {
    match a
    case USER => "auth"
    case TRANSFER => "transfer"
    case KYC => "kyc"
    case PAYMENT => "payment"
    case FUNDING => "funding"
    case VAULT => "vault"
    case PIN => "pin"
    case REVERSAL => "reversal"
    case RECONCILIATION => "reconciliation"
    case Unlisted(name) => name
  }

  function Suffix(i: nat): string
    requires i < 5
  {
    [".retry.1", ".retry.2", ".retry.3", ".retry.4", ".retry.5"][i]
  }

  lemma LevelTopic(a: AggregateType, i: nat)
    requires ResolveRetryPolicy(a).Some? && i < 5
    ensures |ResolveRetryPolicy(a).value| == 5 && ResolveRetryPolicy(a).value[i].topic == BaseName(a) + Suffix(i)
  {}

  /** A retry topic belongs to one aggregate type and one level. */
  lemma TopicsAreDistinct(a: AggregateType, i: nat, b: AggregateType, j: nat)
    requires ResolveRetryPolicy(a).Some? && ResolveRetryPolicy(b).Some? && i < 5 && j < 5
    requires ResolveRetryPolicy(a).value[i].topic == ResolveRetryPolicy(b).value[j].topic
    ensures a == b && i == j
  {
    LevelTopic(a, i);
    LevelTopic(b, j);
    SameParts(BaseName(a), Suffix(i), BaseName(b), Suffix(j));
    assert Suffix(i)[7] == Suffix(j)[7];
    BaseNamesDiffer(a, b);
  }

  lemma SameParts(a: string, s: string, b: string, t: string)
    requires a + s == b + t && |s| == |t|
    ensures a == b && s == t
  {
    assert |a| == |b|;
    assert (a + s)[..|a|] == a && (b + t)[..|a|] == b;
    assert (a + s)[|a|..] == s && (b + t)[|a|..] == t;
  }

  lemma BaseNamesDiffer(a: AggregateType, b: AggregateType)
    requires !a.Unlisted? && !b.Unlisted? && BaseName(a) == BaseName(b)
    ensures a == b
  {
    assert |BaseName(a)| == |BaseName(b)| && BaseName(a)[0] == BaseName(b)[0];
    assert |BaseName(a)| > 1 ==> BaseName(a)[1] == BaseName(b)[1];
  }

  lemma OneOwner(a: AggregateType, i: nat, b: AggregateType)
    requires ResolveRetryPolicy(a).Some? && i < 5
    requires TopicOf(b, ResolveRetryPolicy(a).value[i].topic)
    ensures a == b
  {
    var levels := ResolveRetryPolicy(b).value;
    var l :| l in levels && l.topic == ResolveRetryPolicy(a).value[i].topic;
    var j :| 0 <= j < |levels| && levels[j] == l;
    LevelTopic(b, 0);
    TopicsAreDistinct(a, i, b, j);
  }

  lemma HasTopic(a: AggregateType, i: nat)
    requires ResolveRetryPolicy(a).Some? && i < 5
    ensures TopicOf(a, ResolveRetryPolicy(a).value[i].topic)
  {
    LevelTopic(a, i);
    assert ResolveRetryPolicy(a).value[i] in ResolveRetryPolicy(a).value;
  }

  lemma SubscribedThroughOwner(a: AggregateType, topic: string)
    requires TopicOf(a, topic) && (forall b :: TopicOf(b, topic) ==> b == a)
    ensures Subscribed(topic) <==> a in SubscribedAggregates()
  {
    if Subscribed(topic) {
      var b :| b in SubscribedAggregates() && TopicOf(b, topic);
    }
  }

  lemma Subscriptions(a: AggregateType)
    requires ResolveRetryPolicy(a).Some?
    ensures a in SubscribedAggregates() <==> a != VAULT && a != RECONCILIATION
  {}

  /** What is published for an aggregate type is consumed again exactly when it is not VAULT or
      RECONCILIATION: the topics of these two are missing from the subscription. */
  lemma SubscribedIff(a: AggregateType, i: nat, topic: string)
    requires ResolveRetryPolicy(a).Some? && i < 5
    requires topic == ResolveRetryPolicy(a).value[i].topic
    ensures Subscribed(topic) <==> a != VAULT && a != RECONCILIATION
  {
    HasTopic(a, i);
    forall b | TopicOf(b, topic) ensures a == b {
      OneOwner(a, i, b);
    }
    SubscribedThroughOwner(a, topic);
    Subscriptions(a);
  }

  // ---- The claims of the retry group ----

  const RETRY_CONSUMER_GROUP := "retry-consumer"

  /** What the ladder delivers to the retry group: on the topic of level i the count is i, and
      the claim is made under i + 1. */
  predicate LadderDelivery(d: C.Delivery, a: AggregateType) {
    && d.group == RETRY_CONSUMER_GROUP
    && ResolveRetryPolicy(a).Some?
    && 1 <= d.retryCount <= |ResolveRetryPolicy(a).value|
    && d.topic == ResolveRetryPolicy(a).value[d.retryCount - 1].topic
  }

  ghost function LadderDeliveries(aggregateOf: C.EventId -> AggregateType): iset<C.Delivery> {
    iset d: C.Delivery | LadderDelivery(d, aggregateOf(d.event.id))
  }

  /** Although the retry group reads many topics and its completing update names none, no claim
      of it is ever committed twice: the count says which level it is. */
  lemma RetryGroupIsSafe(aggregateOf: C.EventId -> AggregateType)
    ensures R.SafeFor(LadderDeliveries(aggregateOf))
  {
    R.OneTopicEachIsSafe(LadderDeliveries(aggregateOf));
  }

  /** The ladder does deliver like that: a message it has sent, seen by the retry consumer. */
  lemma SentIsLadderDelivery(c: Config, s: State, j: nat, topic: string, r0: nat, a: AggregateType, e: C.Event)
    requires Core(c, s, topic, r0) && 1 <= j < |s.sent|
    requires ResolveRetryPolicy(a).Some? && c.send == ResolveRetryPolicy(a).value
    ensures var m := s.sent[j];
            && m.loc.Level? && m.loc.i < |c.send|
            && LadderDelivery(C.Delivery(e, RETRY_CONSUMER_GROUP, c.send[m.loc.i].topic, ClaimCount(m)), a)
  {
    assert MsgOk(c, s.sent[j], topic, r0) && Rank(s.sent[j].loc, r0) == j;
  }
}
