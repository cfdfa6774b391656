/** The topics under the retry ladder: what the producers write, envelope by envelope, is what the step
    machine sends, so its statements hold of the messages that wait on the retry topics
    (retry.producer.ts, retry.handler.ts, retry.consumer.ts). */
module RetryDelivery {
  import opened Collections
  import opened RetryLadder
  import opened RetryLadderSafety
  import opened RetryPolicy
  import opened RetryTopics

  /** The envelopes of one event, in order. */
  function Of(es: seq<Envelope>, id: string): seq<Envelope> {
    if es == [] then []
    else
      var e := es[|es| - 1];
      Of(es[..|es| - 1], id) + if e.eventId == id then [e] else []
  }

  /** An envelope on the topic of level i, as the message it is. */
  function AsMessage(e: Envelope, i: nat): Msg { Msg(Level(i), e.retryCount, e.createdAt, e.originalTopic) }

  function AsMessages(es: seq<Envelope>, i: nat): seq<Msg> {
    seq(|es|, k requires 0 <= k < |es| => AsMessage(es[k], i))
  }

  function SentTo(sent: seq<Msg>, i: nat): seq<Msg> {
    if sent == [] then []
    else
      var m := sent[|sent| - 1];
      SentTo(sent[..|sent| - 1], i) + if m.loc == Level(i) then [m] else []
  }

  function ConfigOf(a: AggregateType, p: Processor): Config
    requires ResolveRetryPolicy(a).Some?
  {
    Config(ResolveRetryPolicy(a).value, RegisteredLevels(p), |RegisteredLevels(p)|)
  }

  function LevelOf(a: AggregateType, i: nat): string
    requires ResolveRetryPolicy(a).Some? && i < |ResolveRetryPolicy(a).value|
  {
    ResolveRetryPolicy(a).value[i].topic
  }

  predicate CarriesLevel(ts: Topics, sent: seq<Msg>, a: AggregateType, id: string, i: nat)
    requires ResolveRetryPolicy(a).Some? && i < |ResolveRetryPolicy(a).value|
  {
    AsMessages(Of(Contents(ts, LevelOf(a, i)), id), i) == SentTo(sent, i)
  }

  /** The event's envelopes on each level topic are the messages sent to that level, in order, and it has
      as many dead letters as the machine says. */
  predicate Carries(ts: Topics, s: State, a: AggregateType, id: string, base: string)
    requires ResolveRetryPolicy(a).Some?
  {
    && (forall i :: 0 <= i < |ResolveRetryPolicy(a).value| ==> CarriesLevel(ts, s.sent, a, id, i))
    && |Of(Contents(ts, base + ".dlq"), id)| == |s.dlq|
  }

  lemma OfAppended(es: seq<Envelope>, e: Envelope, id: string)
    ensures Of(es + [e], id) == Of(es, id) + if e.eventId == id then [e] else []
  {
    assert (es + [e])[..|es|] == es;
  }

  lemma SentToAppended(sent: seq<Msg>, m: Msg, i: nat)
    ensures SentTo(sent + [m], i) == SentTo(sent, i) + if m.loc == Level(i) then [m] else []
  {
    assert (sent + [m])[..|sent|] == sent;
  }

  lemma GainOf(before: Topics, after: Topics, topic: string, e: Envelope, t: string, id: string)
    requires Gains(before, after, topic, e)
    ensures Of(Contents(after, t), id) ==
              Of(Contents(before, t), id) + if t == topic && e.eventId == id then [e] else []
  {
    assert Contents(after, t) == Contents(before, t) + if t == topic then [e] else [];
    OfAppended(Contents(before, t), e, id);
    if t != topic { assert Contents(before, t) + [] == Contents(before, t); }
  }

  lemma DlqIsNoLevel(a: AggregateType, i: nat, base: string)
    requires ResolveRetryPolicy(a).Some? && i < |ResolveRetryPolicy(a).value|
    ensures LevelOf(a, i) != DlqOf(base)
  {
    LevelTopic(a, 0);
    LevelTopic(a, i);
    SuffixEnds(i);
    var t := DlqOf(base);
    assert t[|t| - 1] == ".dlq"[3];
    assert LevelOf(a, i)[|LevelOf(a, i)| - 1] == Suffix(i)[7];
  }

  lemma LevelsDiffer(a: AggregateType, i: nat, j: nat)
    requires ResolveRetryPolicy(a).Some? && i < |ResolveRetryPolicy(a).value| && j < |ResolveRetryPolicy(a).value|
    ensures LevelOf(a, i) == LevelOf(a, j) <==> i == j
  {
    LevelTopic(a, 0);
    if LevelOf(a, i) == LevelOf(a, j) { TopicsAreDistinct(a, i, a, j); }
  }

  /** A send to topic tj, seen from topic ti. */
  lemma SendSeenFrom(before: Topics, after: Topics, sent: seq<Msg>, id: string, ti: string, i: nat, tj: string, j: nat,
                     e: Envelope)
    requires ti == tj <==> i == j
    requires AsMessages(Of(Contents(before, ti), id), i) == SentTo(sent, i)
    requires e.eventId == id && Gains(before, after, tj, e)
    ensures AsMessages(Of(Contents(after, ti), id), i) == SentTo(sent + [AsMessage(e, j)], i)
  {
    GainOf(before, after, tj, e, ti, id);
    SentToAppended(sent, AsMessage(e, j), i);
    var es := Of(Contents(before, ti), id);
    assert AsMessages(es + [e], i) == AsMessages(es, i) + [AsMessage(e, i)];
  }

  /** A send to a level and an append to its topic go together. */
  lemma SendCarries(before: Topics, after: Topics, s: State, t: State, a: AggregateType, id: string, base: string,
                    j: nat, e: Envelope)
    requires ResolveRetryPolicy(a).Some? && Carries(before, s, a, id, base)
    requires j < |ResolveRetryPolicy(a).value| && e.eventId == id && Gains(before, after, LevelOf(a, j), e)
    requires t.sent == s.sent + [AsMessage(e, j)] && t.dlq == s.dlq
    ensures Carries(after, t, a, id, base)
  {
    forall i | 0 <= i < |ResolveRetryPolicy(a).value| ensures CarriesLevel(after, t.sent, a, id, i) {
      assert CarriesLevel(before, s.sent, a, id, i);
      LevelsDiffer(a, i, j);
      SendSeenFrom(before, after, s.sent, id, LevelOf(a, i), i, LevelOf(a, j), j, e);
    }
    DlqIsNoLevel(a, j, base);
    GainOf(before, after, LevelOf(a, j), e, DlqOf(base), id);
  }

  /** So do a burial and an append to the dead-letter queue. */
  lemma BurialCarries(before: Topics, after: Topics, s: State, t: State, a: AggregateType, id: string, base: string,
                      e: Envelope)
    requires ResolveRetryPolicy(a).Some? && Carries(before, s, a, id, base)
    requires e.eventId == id && Gains(before, after, DlqOf(base), e)
    requires t.sent == s.sent && |t.dlq| == |s.dlq| + 1
    ensures Carries(after, t, a, id, base)
  {
    forall i | 0 <= i < |ResolveRetryPolicy(a).value| ensures CarriesLevel(after, t.sent, a, id, i) {
      assert CarriesLevel(before, s.sent, a, id, i);
      DlqIsNoLevel(a, i, base);
      GainOf(before, after, DlqOf(base), e, LevelOf(a, i), id);
    }
    GainOf(before, after, DlqOf(base), e, DlqOf(base), id);
  }

  /** Whatever happens to other events, this one's envelopes stay where they are. */
  ghost predicate Quiet(before: Topics, after: Topics, id: string) {
    forall t: string :: Of(Contents(after, t), id) == Of(Contents(before, t), id)
  }

  lemma QuietCarries(before: Topics, after: Topics, s: State, t: State, a: AggregateType, id: string, base: string)
    requires ResolveRetryPolicy(a).Some? && Carries(before, s, a, id, base) && Quiet(before, after, id)
    requires t.sent == s.sent && |t.dlq| == |s.dlq|
    ensures Carries(after, t, a, id, base)
  {
    forall i | 0 <= i < |ResolveRetryPolicy(a).value| ensures CarriesLevel(after, t.sent, a, id, i) {
      assert CarriesLevel(before, s.sent, a, id, i);
      assert Of(Contents(after, LevelOf(a, i)), id) == Of(Contents(before, LevelOf(a, i)), id);
    }
  }

  // ---- The producers beside the machine ----

  /** The envelope that a handler holds for its message. */
  predicate IsEnvelopeOf(e: Envelope, m: Msg, id: string, a: AggregateType) {
    && e.eventId == id && e.aggregateType == a && e.retryCount == m.retryCount
    && (m.loc.Level? ==> e.originalTopic == m.originalTopic && e.createdAt == m.createdAt)
  }

  predicate Publishes(s: State, act: Action) {
    act.Handle? && act.h in s.handlers && act.op.Publish? && s.handlers[act.h].phase.Publishing?
  }

  predicate Exhausts(c: Config, s: State, act: Action) {
    && act.Handle? && act.h in s.handlers && act.op.Enter? && s.handlers[act.h].phase.Received?
    && s.handlers[act.h].msg.loc.Level? && s.handlers[act.h].msg.retryCount + 1 >= c.maxRetries
  }

  /** What the broker does while the machine takes a step: the main consumers' router publishes for a
      message of the main topic, the retry consumer's handler for one of a level, and nobody writes an
      envelope of the event otherwise. */
  ghost predicate BrokerFollows(p: Processor, c: Config, s: State, act: Action, before: Topics, after: Topics,
                                a: AggregateType, id: string, base: string)
  {
    if Publishes(s, act) then
      var hd := s.handlers[act.h];
      exists e: Envelope, message: string :: IsEnvelopeOf(e, hd.msg, id, a) &&
        if hd.msg.loc.Main?
        then FailedOnMain(before, after, base, e, Thrown(hd.phase.f, message), s.now, true, true)
        else HandledOnLevel(before, after, e, p, true, Fails(hd.phase.f), message, s.now, true, true)
    else if Exhausts(c, s, act) then
      exists e: Envelope, granted: bool, outcome: Outcome, message: string ::
        IsEnvelopeOf(e, s.handlers[act.h].msg, id, a) &&
        HandledOnLevel(before, after, e, p, granted, outcome, message, s.now, true, true)
    else Quiet(before, after, id)
  }

  /** The producers do follow: they are called with the envelope of the handler's message, and the broker
      takes what they send. */
  method Accompany(b: Broker, p: Processor, s: State, act: Action, a: AggregateType, id: string, base: string,
                   message: string)
    requires ResolveRetryPolicy(a).Some?
    modifies b
    ensures BrokerFollows(p, ConfigOf(a, p), s, act, old(b.topics), b.topics, a, id, base)
  {
    if Publishes(s, act) {
      var m, f := s.handlers[act.h].msg, s.handlers[act.h].phase.f;
      var e := Envelope(id, a, m.retryCount, m.createdAt, "", m.originalTopic);
      assert IsEnvelopeOf(e, m, id, a);
      if m.loc.Main? {
        b.RetryOrDLQ(base, e, Thrown(f, message), s.now, true, true);
      } else {
        var _ := b.OnRetryMessage(e, p, true, Fails(f), message, s.now, true, true);
      }
    } else if Exhausts(ConfigOf(a, p), s, act) {
      var m := s.handlers[act.h].msg;
      var e := Envelope(id, a, m.retryCount, m.createdAt, "", m.originalTopic);
      assert IsEnvelopeOf(e, m, id, a);
      var _ := b.OnRetryMessage(e, p, false, Success, message, s.now, true, true);
    }
  }

  lemma MainPublishes(c: Config, s: State, h: HandlerId)
    requires WellFormed(c) && h in s.handlers && s.handlers[h].phase.Publishing? && s.handlers[h].msg.loc.Main?
    ensures var m, t := s.handlers[h].msg, Step(c, s, Handle(h, Publish));
            if s.handlers[h].phase.f.Transient? && m.retryCount < c.maxRetries then
              && t.sent == s.sent + [Msg(Level(m.retryCount), m.retryCount, s.now, m.originalTopic)]
              && t.dlq == s.dlq
            else t.sent == s.sent && |t.dlq| == |s.dlq| + 1
  {}

  lemma LevelPublishes(c: Config, s: State, h: HandlerId)
    requires WellFormed(c) && h in s.handlers && s.handlers[h].phase.Publishing? && s.handlers[h].msg.loc.Level?
    requires s.handlers[h].msg.retryCount + 1 < c.maxRetries
    ensures var m, t := s.handlers[h].msg, Step(c, s, Handle(h, Publish));
            && t.sent == s.sent + [Msg(Level(m.retryCount + 1), m.retryCount + 1, s.now, m.originalTopic)]
            && t.dlq == s.dlq
  {}

  lemma MainPublishCarries(p: Processor, s: State, h: HandlerId, before: Topics, after: Topics, a: AggregateType,
                           id: string, base: string, e: Envelope, message: string)
    requires ResolveRetryPolicy(a).Some? && Carries(before, s, a, id, base)
    requires h in s.handlers && s.handlers[h].phase.Publishing? && s.handlers[h].msg.loc.Main?
    requires s.handlers[h].msg.originalTopic == base && IsEnvelopeOf(e, s.handlers[h].msg, id, a)
    requires FailedOnMain(before, after, base, e, Thrown(s.handlers[h].phase.f, message), s.now, true, true)
    ensures Carries(after, Step(ConfigOf(a, p), s, Handle(h, Publish)), a, id, base)
  {
    var c := ConfigOf(a, p);
    var f, t := s.handlers[h].phase.f, Step(c, s, Handle(h, Publish));
    EveryLadderIsWellFormed(p, a);
    MainPublishes(c, s, h);
    if f.Transient? && e.retryCount < 5 {
      SendCarries(before, after, s, t, a, id, base, e.retryCount,
                  Envelope(id, a, e.retryCount, s.now, message, base));
    } else {
      BurialCarries(before, after, s, t, a, id, base,
                    Envelope(id, a, e.retryCount, e.createdAt, message, e.originalTopic));
    }
  }

  lemma LevelPublishCarries(p: Processor, s: State, h: HandlerId, before: Topics, after: Topics, a: AggregateType,
                            id: string, base: string, e: Envelope, message: string)
    requires ResolveRetryPolicy(a).Some? && Carries(before, s, a, id, base)
    requires h in s.handlers && s.handlers[h].phase.Publishing? && s.handlers[h].msg.loc.Level?
    requires s.handlers[h].msg.retryCount + 1 < |RegisteredLevels(p)| && IsEnvelopeOf(e, s.handlers[h].msg, id, a)
    requires HandledOnLevel(before, after, e, p, true, Fails(s.handlers[h].phase.f), message, s.now, true, true)
    ensures Carries(after, Step(ConfigOf(a, p), s, Handle(h, Publish)), a, id, base)
  {
    var c := ConfigOf(a, p);
    EveryLadderIsWellFormed(p, a);
    LevelPublishes(c, s, h);
    SendCarries(before, after, s, Step(c, s, Handle(h, Publish)), a, id, base, e.retryCount + 1,
                Envelope(id, a, e.retryCount + 1, s.now, message, e.originalTopic));
  }

  lemma PublishCarries(p: Processor, s: State, act: Action, before: Topics, after: Topics, a: AggregateType,
                       id: string, base: string, r0: nat)
    requires ResolveRetryPolicy(a).Some? && Core(ConfigOf(a, p), s, base, r0) && Carries(before, s, a, id, base)
    requires Publishes(s, act) && BrokerFollows(p, ConfigOf(a, p), s, act, before, after, a, id, base)
    ensures Carries(after, Step(ConfigOf(a, p), s, act), a, id, base)
  {
    var hd := s.handlers[act.h];
    assert HandlerOk(ConfigOf(a, p), s, act.h, base, r0);
    if hd.msg.loc.Main? {
      var e, message :| IsEnvelopeOf(e, hd.msg, id, a) &&
        FailedOnMain(before, after, base, e, Thrown(hd.phase.f, message), s.now, true, true);
      MainPublishCarries(p, s, act.h, before, after, a, id, base, e, message);
    } else {
      var e, message :| IsEnvelopeOf(e, hd.msg, id, a) &&
        HandledOnLevel(before, after, e, p, true, Fails(hd.phase.f), message, s.now, true, true);
      LevelPublishCarries(p, s, act.h, before, after, a, id, base, e, message);
    }
  }

  lemma ExhaustionCarries(p: Processor, s: State, act: Action, before: Topics, after: Topics, a: AggregateType,
                          id: string, base: string, r0: nat)
    requires ResolveRetryPolicy(a).Some? && Core(ConfigOf(a, p), s, base, r0) && Carries(before, s, a, id, base)
    requires Exhausts(ConfigOf(a, p), s, act)
    requires BrokerFollows(p, ConfigOf(a, p), s, act, before, after, a, id, base)
    ensures Carries(after, Step(ConfigOf(a, p), s, act), a, id, base)
  {
    var c := ConfigOf(a, p);
    assert HandlerOk(c, s, act.h, base, r0);
    var e, granted, outcome, message :| IsEnvelopeOf(e, s.handlers[act.h].msg, id, a) &&
      HandledOnLevel(before, after, e, p, granted, outcome, message, s.now, true, true);
    BurialCarries(before, after, s, Step(c, s, act), a, id, base, e);
  }

  lemma FailPublishesNothing(c: Config, s: State, h: HandlerId, topic: string, r0: nat)
    requires Core(c, s, topic, r0) && h in s.handlers
    ensures HandlerStep(c, s, h, FailClaim).sent == s.sent && HandlerStep(c, s, h, FailClaim).dlq == s.dlq
  {
    assert HandlerOk(c, s, h, topic, r0);
  }

  lemma EnterPublishesNothing(c: Config, s: State, h: HandlerId)
    requires WellFormed(c) && h in s.handlers && !Exhausts(c, s, Handle(h, Enter))
    ensures HandlerStep(c, s, h, Enter).sent == s.sent && HandlerStep(c, s, h, Enter).dlq == s.dlq
  {}

  /** All other steps send and bury nothing. */
  lemma OtherStepsPublishNothing(c: Config, s: State, act: Action, topic: string, r0: nat)
    requires Core(c, s, topic, r0) && !Publishes(s, act) && !Exhausts(c, s, act)
    ensures Step(c, s, act).sent == s.sent && Step(c, s, act).dlq == s.dlq
  {
    if act.Handle? && act.h in s.handlers {
      match act.op
      case Enter => EnterPublishesNothing(c, s, act.h);
      case FailClaim => FailPublishesNothing(c, s, act.h, topic, r0);
      case _ =>
    }
  }

  lemma StepCarries(p: Processor, s: State, act: Action, before: Topics, after: Topics, a: AggregateType,
                    id: string, base: string, r0: nat)
    requires ResolveRetryPolicy(a).Some? && Core(ConfigOf(a, p), s, base, r0) && Carries(before, s, a, id, base)
    requires BrokerFollows(p, ConfigOf(a, p), s, act, before, after, a, id, base)
    ensures Carries(after, Step(ConfigOf(a, p), s, act), a, id, base)
  {
    if Publishes(s, act) {
      PublishCarries(p, s, act, before, after, a, id, base, r0);
    } else if Exhausts(ConfigOf(a, p), s, act) {
      ExhaustionCarries(p, s, act, before, after, a, id, base, r0);
    } else {
      OtherStepsPublishNothing(ConfigOf(a, p), s, act, base, r0);
      QuietCarries(before, after, s, Step(ConfigOf(a, p), s, act), a, id, base);
    }
  }

  /** The states of the topics beside a run. */
  ghost predicate TopicsFollow(p: Processor, c: Config, s: State, acts: seq<Action>, ts: seq<Topics>,
                               a: AggregateType, id: string, base: string)
    decreases |acts|
  {
    && |ts| == |acts| + 1
    && (acts != [] ==>
          && BrokerFollows(p, c, s, acts[0], ts[0], ts[1], a, id, base)
          && TopicsFollow(p, c, Step(c, s, acts[0]), acts[1..], ts[1..], a, id, base))
  }

  lemma {:induction false} RunCarries(p: Processor, s: State, acts: seq<Action>, ts: seq<Topics>, a: AggregateType,
                                      id: string, base: string, r0: nat)
    requires ResolveRetryPolicy(a).Some? && Core(ConfigOf(a, p), s, base, r0)
    requires TopicsFollow(p, ConfigOf(a, p), s, acts, ts, a, id, base) && Carries(ts[0], s, a, id, base)
    ensures Carries(ts[|acts|], Exec(ConfigOf(a, p), s, acts), a, id, base)
    decreases |acts|
  {
    if acts != [] {
      var c := ConfigOf(a, p);
      StepKeepsCore(c, s, acts[0], base, r0);
      StepCarries(p, s, acts[0], ts[0], ts[1], a, id, base, r0);
      RunCarries(p, Step(c, s, acts[0]), acts[1..], ts[1..], a, id, base, r0);
    }
  }

  /** No envelope of the event yet, except on its main topic. */
  ghost predicate Unseen(ts: Topics, id: string, base: string) {
    forall t: string :: t != base ==> Of(Contents(ts, t), id) == []
  }

  /** In every run, of every listed aggregate type and processor, under every interleaving and redelivery,
      the event's envelopes on the retry topics are exactly the messages the ladder has sent, and its dead
      letters are as many as the ladder has buried. */
  lemma TopicsCarryTheLadder(a: AggregateType, p: Processor, base: string, r0: nat, now: int, acts: seq<Action>,
                             ts: seq<Topics>, id: string)
    requires ResolveRetryPolicy(a).Some? && BaseOfNoLevel(a, base)
    requires TopicsFollow(p, ConfigOf(a, p), Init(base, r0, now), acts, ts, a, id, base)
    requires Unseen(ts[0], id, base)
    ensures Carries(ts[|acts|], Exec(ConfigOf(a, p), Init(base, r0, now), acts), a, id, base)
  {
    var s := Init(base, r0, now);
    EveryLadderIsWellFormed(p, a);
    EveryRunInv(ConfigOf(a, p), base, r0, now, []);
    assert s.sent[..0] == [];
    assert DlqOf(base) != base by { assert |DlqOf(base)| == |base| + 4; }
    forall i | 0 <= i < |ResolveRetryPolicy(a).value| ensures CarriesLevel(ts[0], s.sent, a, id, i) {
      assert Of(Contents(ts[0], LevelOf(a, i)), id) == [];
    }
    RunCarries(p, s, acts, ts, a, id, base, r0);
  }

  /** The main topic is none of the levels. */
  predicate BaseOfNoLevel(a: AggregateType, base: string)
    requires ResolveRetryPolicy(a).Some?
  {
    forall i :: 0 <= i < |ResolveRetryPolicy(a).value| ==> LevelOf(a, i) != base
  }

  lemma {:induction false} SentToMember(sent: seq<Msg>, i: nat, m: Msg)
    requires m in SentTo(sent, i)
    ensures m in sent && m.loc == Level(i)
  {
    if sent != [] && m in SentTo(sent[..|sent| - 1], i) { SentToMember(sent[..|sent| - 1], i, m); }
  }

  lemma SentAtLevel(c: Config, s: State, base: string, r0: nat, i: nat, m: Msg)
    requires Inv(c, s, base, r0) && m in SentTo(s.sent, i)
    ensures m.retryCount == i >= r0 && m.originalTopic == base && |s.sent| > 1
    ensures m.createdAt >= s.sent[1].createdAt + TotalDelay(c, r0, i - r0)
  {
    SentToMember(s.sent, i, m);
    var j :| 0 <= j < |s.sent| && s.sent[j] == m;
    assert MsgOk(c, s.sent[j], base, r0) && MsgTimeOk(c, s.now, s.sent, s.sent[j], r0);
  }

  lemma EnvelopeIsSent(ts: Topics, sent: seq<Msg>, a: AggregateType, id: string, i: nat, e: Envelope)
    requires ResolveRetryPolicy(a).Some? && i < |ResolveRetryPolicy(a).value| && CarriesLevel(ts, sent, a, id, i)
    requires e in Of(Contents(ts, LevelOf(a, i)), id)
    ensures AsMessage(e, i) in SentTo(sent, i)
  {
    var es := Of(Contents(ts, LevelOf(a, i)), id);
    var k :| 0 <= k < |es| && es[k] == e;
    assert AsMessages(es, i)[k] == AsMessage(e, i);
  }

  /** So an envelope that waits on the topic of level i carries the count i and the name of the first topic,
      and was written no earlier than the first retry publish plus the delays of the levels before it. */
  lemma EnvelopesWait(a: AggregateType, p: Processor, base: string, r0: nat, now: int, acts: seq<Action>,
                      ts: seq<Topics>, id: string, i: nat, e: Envelope)
    requires ResolveRetryPolicy(a).Some? && BaseOfNoLevel(a, base)
    requires TopicsFollow(p, ConfigOf(a, p), Init(base, r0, now), acts, ts, a, id, base)
    requires Unseen(ts[0], id, base)
    requires i < |ResolveRetryPolicy(a).value| && e in Of(Contents(ts[|acts|], LevelOf(a, i)), id)
    ensures var s := Exec(ConfigOf(a, p), Init(base, r0, now), acts);
            && e.retryCount == i >= r0 && e.originalTopic == base && |s.sent| > 1
            && e.createdAt >= s.sent[1].createdAt + TotalDelay(ConfigOf(a, p), r0, i - r0)
  {
    var c := ConfigOf(a, p);
    var s := Exec(c, Init(base, r0, now), acts);
    TopicsCarryTheLadder(a, p, base, r0, now, acts, ts, id);
    EveryLadderIsWellFormed(p, a);
    EveryRunInv(c, base, r0, now, acts);
    EnvelopeIsSent(ts[|acts|], s.sent, a, id, i, e);
    SentAtLevel(c, s, base, r0, i, AsMessage(e, i));
  }

  // ---- The waits, in numbers ----

  /** A message of level i is processed no earlier than the delay of level i + 1 after it was written, and
      not kept longer. */
  lemma CoolDownIsExact(c: Config, s: State, h: HandlerId)
    requires h in s.handlers && s.handlers[h].phase.Received? && s.handlers[h].msg.loc.Level?
    requires s.handlers[h].msg.retryCount + 1 < c.maxRetries && s.handlers[h].msg.retryCount + 1 < |c.registry|
    ensures var m := s.handlers[h].msg;
            var due := m.createdAt + c.registry[m.retryCount + 1].delayMs;
            HandlerStep(c, s, h, Enter) ==
              s.(handlers := s.handlers[h := Handler(m, Cooling(if due > s.now then due else s.now))])
  {}

  /** The seconds until the first, second, third and fourth retry of an event that entered at level 0, whose
      own delay is never waited for. */
  function Seconds(p: Processor): seq<nat> {
    match p
    case auth => [5, 12, 21, 32]
    case transfer => [5, 12, 23, 53]
    case projection => [5, 12, 23, 53]
    case _ => [30, 150, 750, 4350]
  }

  lemma LadderTakes(a: AggregateType, p: Processor, k: nat)
    requires ResolveRetryPolicy(a).Some? && 1 <= k <= 4
    ensures TotalDelay(ConfigOf(a, p), 0, k) == 1000 * Seconds(p)[k - 1]
  {
    var c := ConfigOf(a, p);
    assert TotalDelay(c, 0, 1) == c.registry[1].delayMs;
    assert TotalDelay(c, 0, 2) == TotalDelay(c, 0, 1) + c.registry[2].delayMs;
    assert TotalDelay(c, 0, 3) == TotalDelay(c, 0, 2) + c.registry[3].delayMs;
    assert TotalDelay(c, 0, 4) == TotalDelay(c, 0, 3) + c.registry[4].delayMs;
  }
}
