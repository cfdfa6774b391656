/** The properties of whole runs of the retry ladder. */
module RetryLadderTheorems {
  import opened Collections
  import opened RetryLadder
  import opened RetryLadderSafety
  import C = Claims

  // ---- Conservation: exactly one live copy ----

  /** The places where the one live copy of an event can be. */
  datatype Token = Waiting(l: Location) | Working(h: HandlerId) | Committed(l: Location) | Buried

  ghost predicate IsLive(c: Config, s: State, t: Token) {
    match t
    case Waiting(l) =>
      (exists m <- s.sent :: m.loc == l) && l !in s.claims && (Workable(c, l) || s.dlq == [])
    case Working(h) => h in s.handlers && Holds(s.handlers[h].phase)
    case Committed(l) => l in s.claims && s.claims[l].status.COMPLETED?
    case Buried => s.dlq != []
  }

  /** Where the live copy is. */
  ghost function TokenOf(s: State): Token
    requires s.sent != []
  {
    var l := Frontier(s).loc;
    if s.dlq != [] then Buried
    else if Held(s) then Working(s.holder)
    else if l in s.claims then Committed(l)
    else Waiting(l)
  }

  lemma LiveIsToken(c: Config, s: State, topic: string, r0: nat, t: Token)
    requires Core(c, s, topic, r0)
    ensures IsLive(c, s, t) <==> t == TokenOf(s)
  {
    var f := Frontier(s);
    assert f in s.sent && MsgOk(c, f, topic, r0);
    if IsLive(c, s, t) {
      match t {
        case Waiting(l) =>
          var m :| m in s.sent && m.loc == l;
          UnclaimedIsFrontier(c, s, l, topic, r0);
        case Working(h) => assert HandlerOk(c, s, h, topic, r0);
        case Committed(l) =>
          assert ClaimOk(c, s, l, r0);
          RankInjective(c, l, f.loc, r0);
        case Buried =>
      }
    }
  }

  ghost predicate SoleCopy(c: Config, s: State, t: Token) {
    forall u :: IsLive(c, s, u) <==> u == t
  }

  /** Whatever is redelivered, and however the handlers interleave, an event has exactly one
      live copy: waiting at one location, in one handler, committed, or dead. */
  lemma ExactlyOneLiveCopy(c: Config, topic: string, r0: nat, now: int, acts: seq<Action>)
    requires WellFormed(c)
    ensures var s := Exec(c, Init(topic, r0, now), acts);
            s.sent != [] && SoleCopy(c, s, TokenOf(s))
  {
    EveryRunInv(c, topic, r0, now, acts);
    var s := Exec(c, Init(topic, r0, now), acts);
    forall t ensures IsLive(c, s, t) <==> t == TokenOf(s) {
      LiveIsToken(c, s, topic, r0, t);
    }
    assert SoleCopy(c, s, TokenOf(s));
  }

  /** A copy that reaches a claimed location is skipped: its handler ends and nothing else moves. */
  lemma OtherCopiesAreSkipped(c: Config, s: State, h: HandlerId, topic: string, r0: nat)
    requires Core(c, s, topic, r0)
    requires h in s.handlers && s.handlers[h].phase.Claiming? && s.handlers[h].msg.loc in s.claims
    ensures var t := HandlerStep(c, s, h, Op.Claim);
            t == s || t == s.(handlers := s.handlers - {h})
  {
    NoPhantom(c, s, h, topic, r0);
  }

  lemma {:induction false} RowIsKept(c: Config, s: State, acts: seq<Action>)
    requires s.row.Some?
    ensures Exec(c, s, acts).row == s.row
    decreases |acts|
  {
    if acts != [] {
      RowIsKept(c, Step(c, s, acts[0]), acts[1..]);
    }
  }

  lemma {:induction false} ExecAppend(c: Config, s: State, xs: seq<Action>, ys: seq<Action>)
    ensures Exec(c, s, xs + ys) == Exec(c, Exec(c, s, xs), ys)
    decreases |xs|
  {
    if xs == [] {
      assert xs + ys == ys;
    } else {
      assert (xs + ys)[1..] == xs[1..] + ys;
      ExecAppend(c, Step(c, s, xs[0]), xs[1..], ys);
    }
  }

  /** A failed_events row is written once and for good, it is one of the letters on the first topic's
      queue, and its event is dead for good: no claim of it is or will be COMPLETED, and no handler
      holds it or will. */
  lemma RowIsFinal(c: Config, topic: string, r0: nat, now: int, acts: seq<Action>, more: seq<Action>)
    requires WellFormed(c)
    ensures var s := Exec(c, Init(topic, r0, now), acts);
            var t := Exec(c, s, more);
            s.row.Some? ==>
              && t.row == s.row && s.row.value in t.dlq && s.row.value.topic == topic + ".dlq"
              && (forall l <- t.claims :: !t.claims[l].status.COMPLETED?)
              && (forall h <- t.handlers :: !Holds(t.handlers[h].phase))
    ensures var s := Exec(c, Init(topic, r0, now), acts);
            forall i :: 0 <= i < |s.dlq| && s.row.None? ==> Step(c, s, Sink(i)).row == Some(s.dlq[i])
  {
    var s := Exec(c, Init(topic, r0, now), acts);
    if s.row.Some? {
      RowIsKept(c, s, more);
      ExecAppend(c, Init(topic, r0, now), acts, more);
      EveryRunInv(c, topic, r0, now, acts + more);
      DeadIsDead(c, Exec(c, s, more), topic, r0);
    }
  }

  lemma DeadIsDead(c: Config, t: State, topic: string, r0: nat)
    requires Core(c, t, topic, r0) && t.dlq != []
    ensures forall l <- t.claims :: !t.claims[l].status.COMPLETED?
    ensures forall h <- t.handlers :: !Holds(t.handlers[h].phase)
  {
    forall l | l in t.claims ensures !t.claims[l].status.COMPLETED? {
      LiveIsToken(c, t, topic, r0, Committed(l));
    }
    forall h | h in t.handlers ensures !Holds(t.handlers[h].phase) {
      LiveIsToken(c, t, topic, r0, Working(h));
    }
  }

  // ---- Where a run of the processor leads ----

  lemma RunnerHolds(c: Config, s: State, h: HandlerId, topic: string, r0: nat)
    requires Core(c, s, topic, r0) && h in s.handlers && s.handlers[h].phase.Running?
    ensures var m, p := s.handlers[h].msg, s.handlers[h].phase;
            && MsgOk(c, m, topic, r0) && Workable(c, m.loc)
            && Matches(s, m, p.version) && s.claims[m.loc].status.PROCESSING?
  {
    assert HandlerOk(c, s, h, topic, r0) && ClaimOk(c, s, s.handlers[h].msg.loc, r0);
  }

  /** In every reachable state a success completes its claim, whoever had to try before, and ends there. */
  lemma SuccessCommits(c: Config, s: State, h: HandlerId, topic: string, r0: nat)
    requires Core(c, s, topic, r0) && h in s.handlers && s.handlers[h].phase.Running?
    ensures var l, t := s.handlers[h].msg.loc, HandlerStep(c, s, h, Process(Success));
            && l in t.claims && t.claims[l].status.COMPLETED? && t.claims == s.claims[l := t.claims[l]]
            && h !in t.handlers && t.sent == s.sent && t.dlq == s.dlq
  {
    RunnerHolds(c, s, h, topic, r0);
  }

  /** A failure fails its claim and leaves one copy: on the next level for any error of a retry, on the level
      of its count for a transient error on the main topic, and on the dead-letter queue otherwise. */
  lemma FailureIsRouted(c: Config, s: State, h: HandlerId, f: Failure, topic: string, r0: nat)
    requires Core(c, s, topic, r0) && h in s.handlers && s.handlers[h].phase.Running?
    ensures var l := s.handlers[h].msg.loc;
            var t := HandlerStep(c, HandlerStep(c, HandlerStep(c, s, h, Process(Fails(f))), h, FailClaim), h, Publish);
            var next := if l.Main? then r0 else l.i + 1;
            && h !in t.handlers && l in t.claims && t.claims[l].status.FAILED?
            && (if l.Level? || (f.Transient? && r0 < c.maxRetries) then
                  t.sent == s.sent + [Msg(Level(next), next, s.now, topic)] && t.dlq == s.dlq
                else
                  && t.sent == s.sent
                  && t.dlq == s.dlq + [Dead(topic + ".dlq", if f.Transient? then NoLevel else Classified)])
  {
    RunnerHolds(c, s, h, topic, r0);
    FailedThenPublishing(c, s, h, f);
  }

  lemma FailedThenPublishing(c: Config, s: State, h: HandlerId, f: Failure)
    requires h in s.handlers && s.handlers[h].phase.Running? && Workable(c, s.handlers[h].msg.loc)
    requires var m := s.handlers[h].msg;
             Matches(s, m, s.handlers[h].phase.version) && (m.loc.Level? ==> m.retryCount == m.loc.i)
    ensures var m := s.handlers[h].msg;
            var t := HandlerStep(c, HandlerStep(c, s, h, Process(Fails(f))), h, FailClaim);
            && t.handlers == s.handlers[h := Handler(m, Publishing(f))]
            && m.loc in t.claims && t.claims[m.loc].status.FAILED?
            && t.sent == s.sent && t.dlq == s.dlq && t.now == s.now
  {
    var t := HandlerStep(c, s, h, Process(Fails(f)));
    assert t.handlers[h] == Handler(s.handlers[h].msg, Failed(s.handlers[h].phase.version, f));
  }

  // ---- The bound ----

  /** Messages are published one per level in order, each on the level of its retryCount; the
      processor runs at most N - r0 times (once if there is no level left); dead letters go to
      the first topic's queue; and the guards behind the first exhaustion check never fire. */
  lemma RetryBound(c: Config, topic: string, r0: nat, now: int, acts: seq<Action>)
    requires WellFormed(c)
    ensures var s := Exec(c, Init(topic, r0, now), acts);
            && (forall j :: 1 <= j < |s.sent| ==>
                  s.sent[j].loc == Level(r0 + j - 1) && s.sent[j].retryCount == r0 + j - 1 < c.maxRetries)
            && (forall j :: 0 <= j < |s.runs| ==> j < |s.sent| && s.runs[j] == s.sent[j].loc)
            && |s.runs| <= (if r0 < c.maxRetries then c.maxRetries - r0 else 1)
            && (forall d <- s.dlq :: d.topic == topic + ".dlq" && !d.reason.NoRetryConfig? && !d.reason.SecondGuard?)
  {
    EveryRunInv(c, topic, r0, now, acts);
    var s := Exec(c, Init(topic, r0, now), acts);
    var f := s.sent[|s.sent| - 1];
    assert MsgOk(c, f, topic, r0) && Rank(f.loc, r0) == |s.sent| - 1;
    if f.loc in s.claims {
      assert ClaimOk(c, s, f.loc, r0);
    }
    forall j | 1 <= j < |s.sent|
      ensures s.sent[j].loc == Level(r0 + j - 1) && s.sent[j].retryCount == r0 + j - 1 < c.maxRetries
    {
      assert MsgOk(c, s.sent[j], topic, r0) && Rank(s.sent[j].loc, r0) == j;
    }
    forall j | 0 <= j < |s.runs| ensures j < |s.sent| && s.runs[j] == s.sent[j].loc {
      assert Rank(s.sent[j].loc, r0) == j && MsgOk(c, s.sent[j], topic, r0);
      RankInjective(c, s.runs[j], s.sent[j].loc, r0);
    }
  }

  // ---- The cool-down ----

  /** A claim at the k-th retry level is granted no earlier than the first retry publish plus
      the delays of the k levels behind it, whatever the delivery lag. */
  lemma CoolDownAccumulates(c: Config, topic: string, r0: nat, now: int, acts: seq<Action>, i: nat)
    requires WellFormed(c)
    requires Level(i) in Exec(c, Init(topic, r0, now), acts).claims
    ensures var s := Exec(c, Init(topic, r0, now), acts);
            && Level(i) in s.starts && i >= r0 && |s.sent| > 1
            && s.starts[Level(i)] >= s.sent[1].createdAt + TotalDelay(c, r0, i - r0 + 1)
  {
    EveryRunInv(c, topic, r0, now, acts);
    var s := Exec(c, Init(topic, r0, now), acts);
    assert ClaimOk(c, s, Level(i), r0);
    assert StartOk(c, s.sent, s.starts[Level(i)], Level(i), r0);
  }

  // ---- An event that always fails transiently ----

  predicate AlwaysTransient(acts: seq<Action>) {
    forall a <- acts :: a.Handle? && a.op.Process? ==> a.op.outcome == Fails(Transient)
  }

  /** Nothing but transient failures has been seen. */
  predicate OnlyTransient(s: State) {
    && (forall h <- s.handlers ::
          && (s.handlers[h].phase.Failed? ==> s.handlers[h].phase.f.Transient?)
          && (s.handlers[h].phase.Publishing? ==> s.handlers[h].phase.f.Transient?))
    && (forall d <- s.dlq :: !d.reason.Classified?)
    && (forall l <- s.claims :: !s.claims[l].status.COMPLETED?)
  }

  lemma ClaimStaysTransient(c: Config, s: State, h: HandlerId)
    requires OnlyTransient(s) && h in s.handlers
    ensures OnlyTransient(HandlerStep(c, s, h, Op.Claim))
  {
    var t := HandlerStep(c, s, h, Op.Claim);
    assert forall l <- t.claims :: l in s.claims || l == s.handlers[h].msg.loc;
  }

  lemma ProcessStaysTransient(c: Config, s: State, h: HandlerId)
    requires OnlyTransient(s) && h in s.handlers
    ensures OnlyTransient(HandlerStep(c, s, h, Process(Fails(Transient))))
  {}

  lemma FailStaysTransient(c: Config, s: State, h: HandlerId)
    requires OnlyTransient(s) && h in s.handlers
    ensures OnlyTransient(HandlerStep(c, s, h, FailClaim))
  {}

  lemma PublishStaysTransient(c: Config, s: State, h: HandlerId)
    requires OnlyTransient(s) && h in s.handlers
    ensures OnlyTransient(HandlerStep(c, s, h, Publish))
  {}

  lemma OpStaysTransient(c: Config, s: State, h: HandlerId, op: Op)
    requires OnlyTransient(s) && h in s.handlers
    requires op.Process? ==> op.outcome == Fails(Transient)
    ensures OnlyTransient(HandlerStep(c, s, h, op))
  {
    match op
    case Enter =>
    case Wake =>
    case Claim => ClaimStaysTransient(c, s, h);
    case Process(_) => ProcessStaysTransient(c, s, h);
    case FailClaim => FailStaysTransient(c, s, h);
    case Publish => PublishStaysTransient(c, s, h);
  }

  lemma {:induction false} RunStaysTransient(c: Config, s: State, acts: seq<Action>)
    requires OnlyTransient(s) && AlwaysTransient(acts)
    ensures OnlyTransient(Exec(c, s, acts))
    decreases |acts|
  {
    if acts != [] {
      var a := acts[0];
      assert a in acts;
      if a.Handle? && a.h in s.handlers {
        OpStaysTransient(c, s, a.h, a.op);
      }
      RunStaysTransient(c, Step(c, s, a), acts[1..]);
    }
  }

  /** Once such an event is dead, in whatever interleaving, it had exactly N - r0 runs and one
      publish per remaining level, and every dead letter is an exhaustion. */
  lemma AlwaysFailingIsExact(c: Config, topic: string, r0: nat, now: int, acts: seq<Action>)
    requires WellFormed(c) && r0 < c.maxRetries
    requires AlwaysTransient(acts)
    ensures var s := Exec(c, Init(topic, r0, now), acts);
            s.dlq != [] ==>
              && |s.runs| == c.maxRetries - r0
              && |s.sent| == c.maxRetries - r0 + 1
              && forall d <- s.dlq :: d == Dead(topic + ".dlq", Exhausted)
  {
    EveryRunInv(c, topic, r0, now, acts);
    RunStaysTransient(c, Init(topic, r0, now), acts);
    var s := Exec(c, Init(topic, r0, now), acts);
    if s.dlq != [] {
      assert s.dlq[0] in s.dlq;
      var f := s.sent[|s.sent| - 1];
      assert MsgOk(c, f, topic, r0) && Rank(f.loc, r0) == |s.sent| - 1;
    }
  }
}
