/** What every run of the retry ladder keeps. */
module RetryLadderSafety {
  import opened Collections
  import opened RetryLadder
  import C = Claims

  lemma TickKeepsCore(c: Config, s: State, ms: nat, topic: string, r0: nat)
    requires Core(c, s, topic, r0)
    ensures Core(c, s.(now := s.now + ms), topic, r0)
  {
    var t := s.(now := s.now + ms);
    SameClaimsKeepClaims(c, s, t, r0);
    forall h | h in t.handlers ensures HandlerOk(c, t, h, topic, r0) {
      assert HandlerOk(c, s, h, topic, r0);
    }
  }

  lemma SinkKeepsCore(c: Config, s: State, row: Option<Dead>, topic: string, r0: nat)
    requires Core(c, s, topic, r0)
    ensures Core(c, s.(row := row), topic, r0)
  {
    var t := s.(row := row);
    SameClaimsKeepClaims(c, s, t, r0);
    forall h | h in t.handlers ensures HandlerOk(c, t, h, topic, r0) {
      assert HandlerOk(c, s, h, topic, r0);
    }
  }

  lemma DeliverKeepsCore(c: Config, s: State, h: HandlerId, i: nat, topic: string, r0: nat)
    requires Core(c, s, topic, r0)
    ensures Core(c, Step(c, s, Deliver(h, i)), topic, r0)
  {
    if h !in s.handlers && i < |s.sent| {
      var t := s.(handlers := s.handlers[h := Handler(s.sent[i], Received)]);
      SameClaimsKeepClaims(c, s, t, r0);
      assert MsgOk(c, s.sent[i], topic, r0) && Rank(s.sent[i].loc, r0) == i;
      forall k | k in t.handlers ensures HandlerOk(c, t, k, topic, r0) {
        if k != h { assert HandlerOk(c, s, k, topic, r0); }
      }
      assert Held(t) <==> Held(s);
    }
  }

  /** The claims' part looks at the claims and at what was sent. */
  lemma SameClaimsKeepClaims(c: Config, s: State, t: State, r0: nat)
    requires s.sent != [] && ClaimsOk(c, s, r0) && t.claims == s.claims && t.sent == s.sent
    ensures ClaimsOk(c, t, r0)
  {
    forall l | l in t.claims ensures ClaimOk(c, t, l, r0) {
      assert ClaimOk(c, s, l, r0);
    }
  }

  lemma EnvironmentKeepsCore(c: Config, s: State, a: Action, topic: string, r0: nat)
    requires Core(c, s, topic, r0)
    requires !a.Handle?
    ensures Core(c, Step(c, s, a), topic, r0)
  {
    match a
    case Tick(ms) => TickKeepsCore(c, s, ms, topic, r0);
    case Deliver(h, i) => DeliverKeepsCore(c, s, h, i, topic, r0);
    case Sink(i) => if i < |s.dlq| { SinkKeepsCore(c, s, Some(s.dlq[i]), topic, r0); }
  }

  /** A handler that holds nothing may wait or go on to claim. */
  lemma WaitingKeepsCore(c: Config, s: State, h: HandlerId, p: Phase, topic: string, r0: nat)
    requires Core(c, s, topic, r0)
    requires h in s.handlers && !Holds(s.handlers[h].phase) && !Holds(p)
    requires !p.Received? ==> Workable(c, s.handlers[h].msg.loc)
    ensures Core(c, SetPhase(s, h, p), topic, r0)
  {
    var t := SetPhase(s, h, p);
    forall k | k in t.handlers ensures HandlerOk(c, t, k, topic, r0) {
      assert HandlerOk(c, s, k, topic, r0);
    }
    forall l | l in t.claims ensures ClaimOk(c, t, l, r0) {
      assert ClaimOk(c, s, l, r0);
    }
  }

  /** What arrives on the last level is dead; nobody can have claimed it. */
  lemma LastLevelKeepsCore(c: Config, s: State, h: HandlerId, r: Reason, topic: string, r0: nat)
    requires Core(c, s, topic, r0)
    requires h in s.handlers && s.handlers[h].phase.Received? && !Workable(c, s.handlers[h].msg.loc)
    ensures Core(c, Bury(s, h, s.handlers[h].msg, r), topic, r0)
  {
    var t := Bury(s, h, s.handlers[h].msg, r);
    assert HandlerOk(c, s, h, topic, r0);
    var l := s.handlers[h].msg.loc;
    UnclaimedIsFrontier(c, s, l, topic, r0);
    forall k | k in t.handlers ensures HandlerOk(c, t, k, topic, r0) {
      assert HandlerOk(c, s, k, topic, r0);
    }
    forall k | k in t.claims ensures ClaimOk(c, t, k, r0) {
      assert ClaimOk(c, s, k, r0);
    }
  }

  lemma EnterIs(c: Config, s: State, h: HandlerId, m: Msg)
    requires WellFormed(c) && h in s.handlers && s.handlers[h] == Handler(m, Received)
    ensures HandlerStep(c, s, h, Enter) ==
              if m.loc.Main? then SetPhase(s, h, Claiming)
              else if m.retryCount + 1 >= c.maxRetries then Bury(s, h, m, Exhausted)
              else SetPhase(s, h, Cooling(s.now + CoolDown(c, s, m)))
  {}

  lemma EnterKeepsCore(c: Config, s: State, h: HandlerId, topic: string, r0: nat)
    requires Core(c, s, topic, r0)
    requires h in s.handlers
    ensures Core(c, HandlerStep(c, s, h, Enter), topic, r0)
  {
    assert HandlerOk(c, s, h, topic, r0);
    var m := s.handlers[h].msg;
    if s.handlers[h].phase.Received? {
      EnterIs(c, s, h, m);
      if m.loc.Level? && m.retryCount + 1 >= c.maxRetries {
        LastLevelKeepsCore(c, s, h, Exhausted, topic, r0);
      } else if m.loc.Main? {
        WaitingKeepsCore(c, s, h, Claiming, topic, r0);
      } else {
        WaitingKeepsCore(c, s, h, Cooling(s.now + CoolDown(c, s, m)), topic, r0);
      }
    }
  }

  lemma WakeKeepsCore(c: Config, s: State, h: HandlerId, topic: string, r0: nat)
    requires Core(c, s, topic, r0)
    requires h in s.handlers
    ensures Core(c, HandlerStep(c, s, h, Wake), topic, r0)
  {
    assert HandlerOk(c, s, h, topic, r0);
    if s.handlers[h].phase.Cooling? { WaitingKeepsCore(c, s, h, Claiming, topic, r0); }
  }

  /** Equal ranks on the ladder are equal locations. */
  lemma RankInjective(c: Config, k: Location, l: Location, r0: nat)
    requires OnLadder(c, k, r0) && OnLadder(c, l, r0) && Rank(k, r0) == Rank(l, r0)
    ensures k == l
  {}

  /** Only the last published message can still be unclaimed. */
  lemma UnclaimedIsFrontier(c: Config, s: State, l: Location, topic: string, r0: nat)
    requires Core(c, s, topic, r0)
    requires OnLadder(c, l, r0) && Rank(l, r0) < |s.sent| && l !in s.claims
    ensures l == Frontier(s).loc
  {
    RankInjective(c, l, s.sent[|s.sent| - 1].loc, r0);
  }

  /** At a location all messages agree on the count, so a found claim is never a phantom. */
  lemma NoPhantom(c: Config, s: State, h: HandlerId, topic: string, r0: nat)
    requires Core(c, s, topic, r0)
    requires h in s.handlers && s.handlers[h].msg.loc in s.claims
    ensures s.claims[s.handlers[h].msg.loc].retryCount == ClaimCount(s.handlers[h].msg)
  {
    assert HandlerOk(c, s, h, topic, r0);
    assert ClaimOk(c, s, s.handlers[h].msg.loc, r0);
  }

  lemma GrantKeepsCore(c: Config, s: State, h: HandlerId, topic: string, r0: nat)
    requires Core(c, s, topic, r0)
    requires h in s.handlers && s.handlers[h].phase.Claiming?
    requires s.handlers[h].msg.loc !in s.claims
    ensures Core(c, ClaimStep(s, h, s.handlers[h].msg), topic, r0)
  {
    var m := s.handlers[h].msg;
    var t := ClaimStep(s, h, m);
    assert HandlerOk(c, s, h, topic, r0);
    UnclaimedIsFrontier(c, s, m.loc, topic, r0);
    assert ClaimOk(c, t, m.loc, r0);
    forall l | l in t.claims ensures ClaimOk(c, t, l, r0) {
      if l != m.loc { assert ClaimOk(c, s, l, r0); }
    }
    forall k | k in t.handlers ensures HandlerOk(c, t, k, topic, r0) {
      assert HandlerOk(c, s, k, topic, r0);
    }
  }

  lemma ClaimKeepsCore(c: Config, s: State, h: HandlerId, topic: string, r0: nat)
    requires Core(c, s, topic, r0)
    requires h in s.handlers
    ensures Core(c, HandlerStep(c, s, h, Op.Claim), topic, r0)
  {
    if s.handlers[h].phase.Claiming? {
      if s.handlers[h].msg.loc !in s.claims {
        GrantKeepsCore(c, s, h, topic, r0);
      } else {
        NoPhantom(c, s, h, topic, r0);
      }
    }
  }

  /** A running handler is the holder, at the last message, with the claim's current version. */
  lemma RunnerHolds(c: Config, s: State, h: HandlerId, topic: string, r0: nat)
    requires Core(c, s, topic, r0)
    requires h in s.handlers && s.handlers[h].phase.Running?
    ensures var f := Frontier(s).loc;
            && h == s.holder && s.handlers[h].msg.loc == f && f in s.claims && s.claims[f].status.PROCESSING?
            && s.dlq == [] && Matches(s, s.handlers[h].msg, s.handlers[h].phase.version)
  {
    assert HandlerOk(c, s, h, topic, r0);
    NoPhantom(c, s, h, topic, r0);
  }

  lemma FailureKeepsCore(c: Config, s: State, h: HandlerId, f: Failure, topic: string, r0: nat)
    requires Core(c, s, topic, r0)
    requires h in s.handlers && s.handlers[h].phase.Running?
    ensures Core(c, HandlerStep(c, s, h, Process(Fails(f))), topic, r0)
  {
    var t := HandlerStep(c, s, h, Process(Fails(f)));
    RunnerHolds(c, s, h, topic, r0);
    SameClaimsKeepClaims(c, s, t, r0);
    forall k | k in t.handlers ensures HandlerOk(c, t, k, topic, r0) {
      assert HandlerOk(c, s, k, topic, r0);
    }
  }

  lemma SuccessKeepsCore(c: Config, s: State, h: HandlerId, topic: string, r0: nat)
    requires Core(c, s, topic, r0)
    requires h in s.handlers && s.handlers[h].phase.Running?
    ensures Core(c, HandlerStep(c, s, h, Process(Success)), topic, r0)
  {
    var t := HandlerStep(c, s, h, Process(Success));
    RunnerHolds(c, s, h, topic, r0);
    forall l | l in t.claims ensures ClaimOk(c, t, l, r0) {
      assert ClaimOk(c, s, l, r0);
    }
    forall k | k in t.handlers ensures HandlerOk(c, t, k, topic, r0) {
      assert HandlerOk(c, s, k, topic, r0);
    }
  }

  lemma ProcessKeepsCore(c: Config, s: State, h: HandlerId, o: Outcome, topic: string, r0: nat)
    requires Core(c, s, topic, r0)
    requires h in s.handlers
    ensures Core(c, HandlerStep(c, s, h, Process(o)), topic, r0)
  {
    assert HandlerOk(c, s, h, topic, r0);
    if s.handlers[h].phase.Running? {
      RunnerHolds(c, s, h, topic, r0);
      match o
      case Fails(f) => FailureKeepsCore(c, s, h, f, topic, r0);
      case Success => SuccessKeepsCore(c, s, h, topic, r0);
    }
  }

  lemma FailKeepsCore(c: Config, s: State, h: HandlerId, topic: string, r0: nat)
    requires Core(c, s, topic, r0)
    requires h in s.handlers
    ensures Core(c, HandlerStep(c, s, h, FailClaim), topic, r0)
  {
    assert HandlerOk(c, s, h, topic, r0);
  }

  /** The holder's last step leaves no holder, and its claim is FAILED. */
  lemma PublisherHolds(c: Config, s: State, h: HandlerId, topic: string, r0: nat)
    requires Core(c, s, topic, r0)
    requires h in s.handlers && s.handlers[h].phase.Publishing?
    ensures var f := Frontier(s).loc;
            && h == s.holder && s.handlers[h].msg.loc == f && f in s.claims && s.claims[f].status.FAILED? && s.dlq == []
            && Workable(c, f)
  {
    assert HandlerOk(c, s, h, topic, r0);
  }

  lemma SentKeepsCore(c: Config, s: State, h: HandlerId, m: Msg, topic: string, r0: nat)
    requires Core(c, s, topic, r0)
    requires h in s.handlers && s.handlers[h].phase.Publishing?
    requires MsgOk(c, m, topic, r0) && Rank(m.loc, r0) == |s.sent|
    ensures Core(c, Done(s, h).(sent := s.sent + [m]), topic, r0)
  {
    var t := Done(s, h).(sent := s.sent + [m]);
    PublisherHolds(c, s, h, topic, r0);
    forall k | k in t.handlers ensures HandlerOk(c, t, k, topic, r0) {
      assert HandlerOk(c, s, k, topic, r0);
    }
    forall l | l in t.claims ensures ClaimOk(c, t, l, r0) {
      assert ClaimOk(c, s, l, r0);
      if Rank(l, r0) == |s.sent| - 1 { RankInjective(c, l, s.sent[|s.sent| - 1].loc, r0); }
    }
    forall l: Location | OnLadder(c, l, r0) && Rank(l, r0) < |t.sent| - 1 ensures l in t.claims {
      if Rank(l, r0) == |s.sent| - 1 { RankInjective(c, l, s.sent[|s.sent| - 1].loc, r0); }
    }
  }

  lemma BuriedKeepsCore(c: Config, s: State, h: HandlerId, r: Reason, topic: string, r0: nat)
    requires Core(c, s, topic, r0)
    requires h in s.handlers && s.handlers[h].phase.Publishing?
    ensures Core(c, Bury(s, h, s.handlers[h].msg, r), topic, r0)
  {
    var t := Bury(s, h, s.handlers[h].msg, r);
    PublisherHolds(c, s, h, topic, r0);
    forall k | k in t.handlers ensures HandlerOk(c, t, k, topic, r0) {
      assert HandlerOk(c, s, k, topic, r0);
    }
    forall l | l in t.claims ensures ClaimOk(c, t, l, r0) {
      assert ClaimOk(c, s, l, r0);
    }
  }

  lemma PublishKeepsCore(c: Config, s: State, h: HandlerId, topic: string, r0: nat)
    requires Core(c, s, topic, r0)
    requires h in s.handlers
    ensures Core(c, HandlerStep(c, s, h, Publish), topic, r0)
  {
    if s.handlers[h].phase.Publishing? {
      assert HandlerOk(c, s, h, topic, r0);
      PublisherHolds(c, s, h, topic, r0);
      assert Rank(s.sent[|s.sent| - 1].loc, r0) == |s.sent| - 1;
      var m, f := s.handlers[h].msg, s.handlers[h].phase.f;
      var next := if m.loc.Main? then m.retryCount else m.retryCount + 1;
      if m.loc.Main? && !f.Transient? {
        BuriedKeepsCore(c, s, h, Classified, topic, r0);
      } else if next < |c.send| {
        SentKeepsCore(c, s, h, Msg(Level(next), next, s.now, m.originalTopic), topic, r0);
      } else {
        BuriedKeepsCore(c, s, h, NoLevel, topic, r0);
      }
    }
  }

  lemma HandlerStepKeepsCore(c: Config, s: State, h: HandlerId, op: Op, topic: string, r0: nat)
    requires Core(c, s, topic, r0)
    requires h in s.handlers
    ensures Core(c, HandlerStep(c, s, h, op), topic, r0)
  {
    match op
    case Enter => EnterKeepsCore(c, s, h, topic, r0);
    case Wake => WakeKeepsCore(c, s, h, topic, r0);
    case Claim => ClaimKeepsCore(c, s, h, topic, r0);
    case Process(o) => ProcessKeepsCore(c, s, h, o, topic, r0);
    case FailClaim => FailKeepsCore(c, s, h, topic, r0);
    case Publish => PublishKeepsCore(c, s, h, topic, r0);
  }

  lemma StepKeepsCore(c: Config, s: State, a: Action, topic: string, r0: nat)
    requires Core(c, s, topic, r0)
    ensures Core(c, Step(c, s, a), topic, r0)
  {
    if a.Handle? && a.h in s.handlers {
      HandlerStepKeepsCore(c, s, a.h, a.op, topic, r0);
    } else if !a.Handle? {
      EnvironmentKeepsCore(c, s, a, topic, r0);
    }
  }

  lemma EnterKeepsRest(c: Config, s: State, h: HandlerId, topic: string, r0: nat)
    requires Core(c, s, topic, r0) && RunsOk(c, s, r0) && DeadOk(c, s, topic, r0) && h in s.handlers
    ensures HandlerStep(c, s, h, Enter).sent != []
    ensures RunsOk(c, HandlerStep(c, s, h, Enter), r0) && DeadOk(c, HandlerStep(c, s, h, Enter), topic, r0)
  {
    assert HandlerOk(c, s, h, topic, r0);
  }

  lemma WakeKeepsRest(c: Config, s: State, h: HandlerId, topic: string, r0: nat)
    requires Core(c, s, topic, r0) && RunsOk(c, s, r0) && DeadOk(c, s, topic, r0) && h in s.handlers
    ensures HandlerStep(c, s, h, Wake).sent != []
    ensures RunsOk(c, HandlerStep(c, s, h, Wake), r0) && DeadOk(c, HandlerStep(c, s, h, Wake), topic, r0)
  {
    assert HandlerOk(c, s, h, topic, r0);
  }

  lemma GrantKeepsRest(c: Config, s: State, h: HandlerId, topic: string, r0: nat)
    requires Core(c, s, topic, r0) && RunsOk(c, s, r0) && DeadOk(c, s, topic, r0)
    requires h in s.handlers && s.handlers[h].phase.Claiming? && s.handlers[h].msg.loc !in s.claims
    ensures var t := ClaimStep(s, h, s.handlers[h].msg); RunsOk(c, t, r0) && DeadOk(c, t, topic, r0)
  {
    assert HandlerOk(c, s, h, topic, r0);
    UnclaimedIsFrontier(c, s, s.handlers[h].msg.loc, topic, r0);
  }

  lemma SkipKeepsRest(c: Config, s: State, h: HandlerId, topic: string, r0: nat)
    requires Core(c, s, topic, r0) && RunsOk(c, s, r0) && DeadOk(c, s, topic, r0)
    requires h in s.handlers && s.handlers[h].phase.Claiming?
    ensures RunsOk(c, Done(s, h), r0) && DeadOk(c, Done(s, h), topic, r0)
  {}

  lemma ClaimKeepsRest(c: Config, s: State, h: HandlerId, topic: string, r0: nat)
    requires Core(c, s, topic, r0) && RunsOk(c, s, r0) && DeadOk(c, s, topic, r0) && h in s.handlers
    ensures HandlerStep(c, s, h, Op.Claim).sent != []
    ensures RunsOk(c, HandlerStep(c, s, h, Op.Claim), r0) && DeadOk(c, HandlerStep(c, s, h, Op.Claim), topic, r0)
  {
    if s.handlers[h].phase.Claiming? {
      assert HandlerOk(c, s, h, topic, r0);
      if s.handlers[h].msg.loc !in s.claims {
        GrantKeepsRest(c, s, h, topic, r0);
      } else {
        NoPhantom(c, s, h, topic, r0);
        SkipKeepsRest(c, s, h, topic, r0);
      }
    }
  }

  lemma ProcessKeepsRest(c: Config, s: State, h: HandlerId, o: Outcome, topic: string, r0: nat)
    requires Core(c, s, topic, r0) && RunsOk(c, s, r0) && DeadOk(c, s, topic, r0) && h in s.handlers
    ensures HandlerStep(c, s, h, Process(o)).sent != []
    ensures RunsOk(c, HandlerStep(c, s, h, Process(o)), r0) && DeadOk(c, HandlerStep(c, s, h, Process(o)), topic, r0)
  {
    assert HandlerOk(c, s, h, topic, r0);
  }

  lemma FailKeepsRest(c: Config, s: State, h: HandlerId, topic: string, r0: nat)
    requires Core(c, s, topic, r0) && RunsOk(c, s, r0) && DeadOk(c, s, topic, r0) && h in s.handlers
    ensures HandlerStep(c, s, h, FailClaim).sent != []
    ensures RunsOk(c, HandlerStep(c, s, h, FailClaim), r0) && DeadOk(c, HandlerStep(c, s, h, FailClaim), topic, r0)
  {
    assert HandlerOk(c, s, h, topic, r0);
  }

  lemma PublishKeepsRest(c: Config, s: State, h: HandlerId, topic: string, r0: nat)
    requires Core(c, s, topic, r0) && RunsOk(c, s, r0) && DeadOk(c, s, topic, r0) && h in s.handlers
    ensures HandlerStep(c, s, h, Publish).sent != []
    ensures RunsOk(c, HandlerStep(c, s, h, Publish), r0) && DeadOk(c, HandlerStep(c, s, h, Publish), topic, r0)
  {
    assert HandlerOk(c, s, h, topic, r0);
  }

  /** The wait ends no earlier than the level's delay after the message was created. */
  lemma CoolDownIsEnough(c: Config, s: State, m: Msg, topic: string, r0: nat)
    requires MsgOk(c, m, topic, r0) && MsgTimeOk(c, s.now, s.sent, m, r0)
    requires m.loc.Level? && m.retryCount + 1 < |c.registry|
    ensures NotBefore(c, s.sent, r0, s.now + CoolDown(c, s, m), Rank(m.loc, r0))
  {
    var k := Rank(m.loc, r0);
    assert TotalDelay(c, r0, k) == TotalDelay(c, r0, k - 1) + c.registry[r0 + k].delayMs;
  }

  lemma EnterKeepsTimes(c: Config, s: State, h: HandlerId, topic: string, r0: nat)
    requires Core(c, s, topic, r0) && TimesOk(c, s, r0) && h in s.handlers
    ensures TimesOk(c, HandlerStep(c, s, h, Enter), r0)
  {
    var m, t := s.handlers[h].msg, HandlerStep(c, s, h, Enter);
    assert HandlerOk(c, s, h, topic, r0);
    assert HandlerTimeOk(c, s.now, s.sent, s.handlers[h], r0);
    if m.loc.Level? && m.retryCount + 1 < |c.registry| {
      CoolDownIsEnough(c, s, m, topic, r0);
    }
    forall k | k in t.handlers ensures HandlerTimeOk(c, t.now, t.sent, t.handlers[k], r0) {
      assert HandlerTimeOk(c, s.now, s.sent, s.handlers[k], r0);
    }
  }

  lemma WakeKeepsTimes(c: Config, s: State, h: HandlerId, topic: string, r0: nat)
    requires Core(c, s, topic, r0) && TimesOk(c, s, r0) && h in s.handlers
    ensures TimesOk(c, HandlerStep(c, s, h, Wake), r0)
  {
    assert HandlerOk(c, s, h, topic, r0);
    assert HandlerTimeOk(c, s.now, s.sent, s.handlers[h], r0);
  }

  /** A first claim starts when its handler's wait is over. */
  lemma GrantKeepsTimes(c: Config, s: State, h: HandlerId, r0: nat)
    requires TimesOk(c, s, r0) && h in s.handlers && s.handlers[h].phase.Claiming?
    requires s.handlers[h].msg.loc !in s.claims
    ensures TimesOk(c, ClaimStep(s, h, s.handlers[h].msg), r0)
  {
    var m, t := s.handlers[h].msg, ClaimStep(s, h, s.handlers[h].msg);
    assert HandlerTimeOk(c, s.now, s.sent, s.handlers[h], r0);
    assert StartOk(c, t.sent, s.now, m.loc, r0);
    forall k | k in t.handlers ensures HandlerTimeOk(c, t.now, t.sent, t.handlers[k], r0) {
      assert HandlerTimeOk(c, s.now, s.sent, s.handlers[k], r0);
    }
    forall l | l in t.starts ensures StartOk(c, t.sent, t.starts[l], l, r0) {
      if l != m.loc { assert StartOk(c, s.sent, s.starts[l], l, r0); }
    }
  }

  lemma ClaimKeepsTimes(c: Config, s: State, h: HandlerId, topic: string, r0: nat)
    requires Core(c, s, topic, r0) && TimesOk(c, s, r0) && h in s.handlers
    ensures TimesOk(c, HandlerStep(c, s, h, Op.Claim), r0)
  {
    var m := s.handlers[h].msg;
    if s.handlers[h].phase.Claiming? {
      if m.loc !in s.claims {
        GrantKeepsTimes(c, s, h, r0);
      } else {
        NoPhantom(c, s, h, topic, r0);
        DoneKeepsTimes(c, s, h, r0);
      }
    }
  }

  lemma DoneKeepsTimes(c: Config, s: State, h: HandlerId, r0: nat)
    requires TimesOk(c, s, r0)
    ensures TimesOk(c, Done(s, h), r0)
  {
    forall k | k in Done(s, h).handlers ensures HandlerTimeOk(c, s.now, s.sent, s.handlers[k], r0) {}
  }

  lemma ProcessKeepsTimes(c: Config, s: State, h: HandlerId, o: Outcome, topic: string, r0: nat)
    requires Core(c, s, topic, r0) && TimesOk(c, s, r0) && h in s.handlers
    ensures TimesOk(c, HandlerStep(c, s, h, Process(o)), r0)
  {
    assert HandlerOk(c, s, h, topic, r0);
    assert HandlerTimeOk(c, s.now, s.sent, s.handlers[h], r0);
  }

  lemma FailKeepsTimes(c: Config, s: State, h: HandlerId, topic: string, r0: nat)
    requires Core(c, s, topic, r0) && TimesOk(c, s, r0) && h in s.handlers
    ensures TimesOk(c, HandlerStep(c, s, h, FailClaim), r0)
  {
    assert HandlerOk(c, s, h, topic, r0);
    assert HandlerTimeOk(c, s.now, s.sent, s.handlers[h], r0);
  }

  lemma PublishKeepsTimes(c: Config, s: State, h: HandlerId, topic: string, r0: nat)
    requires Core(c, s, topic, r0) && TimesOk(c, s, r0) && h in s.handlers
    ensures TimesOk(c, HandlerStep(c, s, h, Publish), r0)
  {
    assert HandlerOk(c, s, h, topic, r0);
    assert HandlerTimeOk(c, s.now, s.sent, s.handlers[h], r0);
    var t := HandlerStep(c, s, h, Publish);
    if t.sent != s.sent {
      PublishedTimesOk(c, s, t, h, topic, r0);
    }
  }

  /** The new message itself: its publisher had waited for the level before. */
  lemma PublishedNotBefore(c: Config, s: State, t: State, h: HandlerId, topic: string, r0: nat)
    requires Core(c, s, topic, r0) && TimesOk(c, s, r0) && h in s.handlers && s.handlers[h].phase.Publishing?
    requires |t.sent| == |s.sent| + 1 && t.sent[..|s.sent|] == s.sent && t.now == s.now
    requires var m := t.sent[|s.sent|];
             m.createdAt == s.now && MsgOk(c, m, topic, r0) && Rank(m.loc, r0) == |s.sent|
    ensures MsgTimeOk(c, t.now, t.sent, t.sent[|s.sent|], r0)
  {
    PublisherHolds(c, s, h, topic, r0);
    assert HandlerTimeOk(c, s.now, s.sent, s.handlers[h], r0);
    var last := s.sent[|s.sent| - 1];
    assert Rank(last.loc, r0) == |s.sent| - 1;
    if |s.sent| == 1 {
      assert TotalDelay(c, r0, 0) == 0;
    } else {
      assert t.sent[1] == s.sent[1];
    }
  }

  /** A new message keeps every bound already reached. */
  lemma PublishedKeepsBounds(c: Config, s: State, t: State, h: HandlerId, r0: nat)
    requires TimesOk(c, s, r0) && s.sent != []
    requires |t.sent| == |s.sent| + 1 && t.sent[..|s.sent|] == s.sent
    requires t.now == s.now && t.handlers == s.handlers - {h} && t.starts == s.starts && t.claims == s.claims
    ensures forall x <- s.sent :: MsgTimeOk(c, t.now, t.sent, x, r0)
    ensures forall k <- t.handlers :: HandlerTimeOk(c, t.now, t.sent, t.handlers[k], r0)
    ensures forall l <- t.starts :: StartOk(c, t.sent, t.starts[l], l, r0)
  {
    forall time, k | NotBefore(c, s.sent, r0, time, k) ensures NotBefore(c, t.sent, r0, time, k) {}
    forall x | x in s.sent ensures MsgTimeOk(c, t.now, t.sent, x, r0) {
      assert MsgTimeOk(c, s.now, s.sent, x, r0);
    }
    forall k | k in t.handlers ensures HandlerTimeOk(c, t.now, t.sent, t.handlers[k], r0) {
      assert HandlerTimeOk(c, s.now, s.sent, s.handlers[k], r0);
    }
    forall l | l in t.starts ensures StartOk(c, t.sent, t.starts[l], l, r0) {
      assert StartOk(c, s.sent, s.starts[l], l, r0);
    }
  }

  lemma PublishedTimesOk(c: Config, s: State, t: State, h: HandlerId, topic: string, r0: nat)
    requires Core(c, s, topic, r0) && TimesOk(c, s, r0) && h in s.handlers && s.handlers[h].phase.Publishing?
    requires |t.sent| == |s.sent| + 1 && t.sent[..|s.sent|] == s.sent
    requires t.now == s.now && t.handlers == s.handlers - {h} && t.starts == s.starts && t.claims == s.claims
    requires var m := t.sent[|s.sent|];
             m.createdAt == s.now && MsgOk(c, m, topic, r0) && Rank(m.loc, r0) == |s.sent|
    ensures TimesOk(c, t, r0)
  {
    PublishedKeepsBounds(c, s, t, h, r0);
    PublishedNotBefore(c, s, t, h, topic, r0);
    forall x | x in t.sent ensures MsgTimeOk(c, t.now, t.sent, x, r0) {
      assert x in s.sent || x == t.sent[|s.sent|];
    }
  }

  lemma EnvironmentKeepsRest(c: Config, s: State, a: Action, topic: string, r0: nat)
    requires Core(c, s, topic, r0) && RunsOk(c, s, r0) && DeadOk(c, s, topic, r0) && !a.Handle?
    ensures Step(c, s, a).sent != []
    ensures RunsOk(c, Step(c, s, a), r0) && DeadOk(c, Step(c, s, a), topic, r0)
  {}

  lemma EnvironmentKeepsTimes(c: Config, s: State, a: Action, r0: nat)
    requires TimesOk(c, s, r0) && !a.Handle?
    ensures TimesOk(c, Step(c, s, a), r0)
  {
    var t := Step(c, s, a);
    forall m | m in t.sent ensures MsgTimeOk(c, t.now, t.sent, m, r0) {
      assert MsgTimeOk(c, s.now, s.sent, m, r0);
    }
    forall h | h in t.handlers ensures HandlerTimeOk(c, t.now, t.sent, t.handlers[h], r0) {
      if h in s.handlers {
        assert HandlerTimeOk(c, s.now, s.sent, s.handlers[h], r0);
      }
    }
  }

  lemma HandlerStepKeepsRest(c: Config, s: State, h: HandlerId, op: Op, topic: string, r0: nat)
    requires Inv(c, s, topic, r0) && h in s.handlers
    ensures Inv(c, HandlerStep(c, s, h, op), topic, r0)
  {
    HandlerStepKeepsCore(c, s, h, op, topic, r0);
    match op
    case Enter => EnterKeepsRest(c, s, h, topic, r0); EnterKeepsTimes(c, s, h, topic, r0);
    case Wake => WakeKeepsRest(c, s, h, topic, r0); WakeKeepsTimes(c, s, h, topic, r0);
    case Claim => ClaimKeepsRest(c, s, h, topic, r0); ClaimKeepsTimes(c, s, h, topic, r0);
    case Process(o) => ProcessKeepsRest(c, s, h, o, topic, r0); ProcessKeepsTimes(c, s, h, o, topic, r0);
    case FailClaim => FailKeepsRest(c, s, h, topic, r0); FailKeepsTimes(c, s, h, topic, r0);
    case Publish => PublishKeepsRest(c, s, h, topic, r0); PublishKeepsTimes(c, s, h, topic, r0);
  }

  lemma StepKeepsInv(c: Config, s: State, a: Action, topic: string, r0: nat)
    requires Inv(c, s, topic, r0)
    ensures Inv(c, Step(c, s, a), topic, r0)
  {
    if a.Handle? {
      if a.h in s.handlers {
        HandlerStepKeepsRest(c, s, a.h, a.op, topic, r0);
      }
    } else {
      StepKeepsCore(c, s, a, topic, r0);
      EnvironmentKeepsRest(c, s, a, topic, r0);
      EnvironmentKeepsTimes(c, s, a, r0);
    }
  }

  lemma {:induction false} RunKeepsInv(c: Config, s: State, acts: seq<Action>, topic: string, r0: nat)
    requires Inv(c, s, topic, r0)
    ensures Inv(c, Exec(c, s, acts), topic, r0)
    decreases |acts|
  {
    if acts != [] {
      StepKeepsInv(c, s, acts[0], topic, r0);
      RunKeepsInv(c, Step(c, s, acts[0]), acts[1..], topic, r0);
    }
  }

  lemma EveryRunInv(c: Config, topic: string, r0: nat, now: int, acts: seq<Action>)
    requires WellFormed(c)
    ensures Inv(c, Exec(c, Init(topic, r0, now), acts), topic, r0)
  {
    RunKeepsInv(c, Init(topic, r0, now), acts, topic, r0);
  }
}
