/** Where the retry ladder ends: every event that keeps failing can be driven to the dead-letter queue
    from wherever it is, and without redelivery it arrives there once
    (retry.consumer.ts, retry.producer.ts, retry.handler.ts). */
module RetryLadderProgress {
  import opened Collections
  import opened RetryLadder
  import opened RetryLadderSafety
  import opened RetryLadderTheorems

  // ---- Runs with transient failures only ----

  ghost predicate Path(c: Config, s: State, t: State) {
    exists acts :: AlwaysTransient(acts) && Exec(c, s, acts) == t
  }

  lemma PathSelf(c: Config, s: State)
    ensures Path(c, s, s)
  {
    assert Exec(c, s, []) == s;
  }

  lemma PathTransitive(c: Config, s: State, t: State, u: State)
    requires Path(c, s, t) && Path(c, t, u)
    ensures Path(c, s, u)
  {
    var xs :| AlwaysTransient(xs) && Exec(c, s, xs) == t;
    var ys :| AlwaysTransient(ys) && Exec(c, t, ys) == u;
    ExecAppend(c, s, xs, ys);
    assert AlwaysTransient(xs + ys);
  }

  lemma PathStep(c: Config, s: State, a: Action)
    requires a.Handle? && a.op.Process? ==> a.op.outcome == Fails(Transient)
    ensures Path(c, s, Step(c, s, a))
  {
    assert [a][1..] == [];
    assert Exec(c, s, [a]) == Step(c, s, a);
    assert AlwaysTransient([a]);
  }

  ghost function Walk(c: Config, s: State, t: State, a: Action): (r: State)
    requires Path(c, s, t)
    requires a.Handle? && a.op.Process? ==> a.op.outcome == Fails(Transient)
    ensures r == Step(c, t, a) && Path(c, s, r)
  {
    PathStep(c, t, a);
    PathTransitive(c, s, t, Step(c, t, a));
    Step(c, t, a)
  }

  /** An event that has failed transiently only and is not dead. */
  ghost predicate Failing(c: Config, s: State, topic: string, r0: nat) {
    Core(c, s, topic, r0) && OnlyTransient(s) && s.dlq == []
  }

  lemma {:induction false} RunKeepsFailing(c: Config, s: State, acts: seq<Action>, topic: string, r0: nat)
    requires Core(c, s, topic, r0) && OnlyTransient(s) && AlwaysTransient(acts)
    ensures Core(c, Exec(c, s, acts), topic, r0) && OnlyTransient(Exec(c, s, acts))
    decreases |acts|
  {
    if acts != [] {
      StepKeepsCore(c, s, acts[0], topic, r0);
      RunStaysTransient(c, s, [acts[0]]);
      assert Exec(c, s, [acts[0]]) == Step(c, s, acts[0]) by { assert [acts[0]][1..] == []; }
      RunKeepsFailing(c, Step(c, s, acts[0]), acts[1..], topic, r0);
    }
  }

  lemma PathKeepsFailing(c: Config, s: State, t: State, topic: string, r0: nat)
    requires Failing(c, s, topic, r0) && Path(c, s, t)
    ensures Core(c, t, topic, r0) && OnlyTransient(t)
  {
    var acts :| AlwaysTransient(acts) && Exec(c, s, acts) == t;
    RunKeepsFailing(c, s, acts, topic, r0);
  }

  /** Its last message is outstanding, or some handler holds it. */
  lemma HeldOrOutstanding(c: Config, s: State, topic: string, r0: nat)
    requires Failing(c, s, topic, r0)
    ensures Held(s) <==> Frontier(s).loc in s.claims
  {}

  // ---- One rung ----

  lemma {:induction false} FreshId(hs: set<HandlerId>) returns (h: HandlerId)
    ensures h !in hs && forall k <- hs :: k < h
    decreases hs
  {
    h := 0;
    if hs != {} {
      var k :| k in hs;
      var j := FreshId(hs - {k});
      h := if j > k then j else k + 1;
      assert forall x <- hs :: x == k || x in hs - {k};
    }
  }

  function WithHandler(s: State, h: HandlerId, m: Msg, p: Phase): State {
    s.(handlers := s.handlers[h := Handler(m, p)])
  }

  lemma Received(c: Config, s: State, h: HandlerId)
    requires s.sent != [] && h !in s.handlers
    ensures Step(c, s, Deliver(h, |s.sent| - 1)) == WithHandler(s, h, Frontier(s), Phase.Received)
  {}

  lemma MainEnters(c: Config, s: State, h: HandlerId, m: Msg)
    requires m.loc.Main?
    ensures Step(c, WithHandler(s, h, m, Phase.Received), Handle(h, Enter)) == WithHandler(s, h, m, Claiming)
  {
    var t := WithHandler(s, h, m, Phase.Received);
    assert SetPhase(t, h, Claiming) == WithHandler(s, h, m, Claiming);
  }

  lemma LevelCools(c: Config, s: State, h: HandlerId, m: Msg)
    requires m.loc.Level? && m.retryCount + 1 < c.maxRetries == |c.registry|
    ensures Step(c, WithHandler(s, h, m, Phase.Received), Handle(h, Enter))
         == WithHandler(s, h, m, Cooling(s.now + CoolDown(c, s, m)))
  {
    var t := WithHandler(s, h, m, Phase.Received);
    var p := Cooling(s.now + CoolDown(c, s, m));
    assert SetPhase(t, h, p) == WithHandler(s, h, m, p);
  }

  lemma CooledWakes(c: Config, s: State, h: HandlerId, m: Msg, wait: nat)
    ensures Step(c, Step(c, WithHandler(s, h, m, Cooling(s.now + wait)), Tick(wait)), Handle(h, Wake))
         == WithHandler(s.(now := s.now + wait), h, m, Claiming)
  {
    var t := Step(c, WithHandler(s, h, m, Cooling(s.now + wait)), Tick(wait));
    assert SetPhase(t, h, Claiming) == WithHandler(s.(now := s.now + wait), h, m, Claiming);
  }

  /** A fresh handler takes the outstanding message to its claim. */
  lemma ToClaiming(c: Config, s: State, h: HandlerId, topic: string, r0: nat) returns (t: State)
    requires Failing(c, s, topic, r0) && Frontier(s).loc !in s.claims && Workable(c, Frontier(s).loc)
    requires h !in s.handlers
    ensures Path(c, s, t)
    ensures t == WithHandler(s.(now := t.now), h, Frontier(s), Claiming)
  {
    var m := Frontier(s);
    assert MsgOk(c, s.sent[|s.sent| - 1], topic, r0);
    PathSelf(c, s);
    Received(c, s, h);
    t := Walk(c, s, s, Deliver(h, |s.sent| - 1));
    if m.loc.Main? {
      MainEnters(c, s, h, m);
      t := Walk(c, s, t, Handle(h, Enter));
    } else {
      t := LevelWaits(c, s, t, h, m);
    }
  }

  lemma LevelWaits(c: Config, s: State, u: State, h: HandlerId, m: Msg) returns (t: State)
    requires Path(c, s, u) && u == WithHandler(s, h, m, Phase.Received)
    requires m.loc.Level? && m.retryCount + 1 < c.maxRetries == |c.registry|
    ensures Path(c, s, t) && t == WithHandler(s.(now := t.now), h, m, Claiming)
  {
    var wait := CoolDown(c, s, m);
    LevelCools(c, s, h, m);
    CooledWakes(c, s, h, m, wait);
    t := Walk(c, s, u, Handle(h, Enter));
    t := Walk(c, s, t, Tick(wait));
    t := Walk(c, s, t, Handle(h, Wake));
  }

  /** It gets the claim, and is the holder. */
  lemma ToRunning(c: Config, s: State, topic: string, r0: nat) returns (t: State)
    requires Failing(c, s, topic, r0) && Frontier(s).loc !in s.claims && Workable(c, Frontier(s).loc)
    ensures Path(c, s, t) && t.sent == s.sent && t.dlq == [] && Held(t)
  {
    var h := FreshId(s.handlers.Keys);
    var u := ToClaiming(c, s, h, topic, r0);
    t := Walk(c, s, u, Handle(h, Op.Claim));
  }

  lemma RunFails(c: Config, s: State, topic: string, r0: nat) returns (t: State)
    requires Failing(c, s, topic, r0) && Held(s) && s.handlers[s.holder].phase.Running?
    ensures Path(c, s, t) && t.sent == s.sent && t.dlq == [] && Held(t) && t.handlers[t.holder].phase.Failed?
  {
    PathSelf(c, s);
    t := Walk(c, s, s, Handle(s.holder, Process(Fails(Transient))));
  }

  lemma ClaimFails(c: Config, s: State, topic: string, r0: nat) returns (t: State)
    requires Failing(c, s, topic, r0) && Held(s) && s.handlers[s.holder].phase.Failed?
    ensures Path(c, s, t) && t.sent == s.sent && t.dlq == [] && Held(t) && t.handlers[t.holder].phase.Publishing?
  {
    PathSelf(c, s);
    assert HandlerOk(c, s, s.holder, topic, r0);
    t := Walk(c, s, s, Handle(s.holder, FailClaim));
  }

  lemma Published(c: Config, s: State, topic: string, r0: nat) returns (t: State)
    requires Failing(c, s, topic, r0) && Held(s) && s.handlers[s.holder].phase.Publishing?
    ensures Path(c, s, t)
    ensures t.dlq != [] || (|t.sent| == |s.sent| + 1 && t.claims == s.claims)
  {
    PathSelf(c, s);
    t := Walk(c, s, s, Handle(s.holder, Publish));
  }

  lemma NextIsUnclaimed(c: Config, s: State, t: State, topic: string, r0: nat)
    requires Core(c, s, topic, r0) && Core(c, t, topic, r0)
    requires |t.sent| == |s.sent| + 1 && t.claims == s.claims
    ensures Frontier(t).loc !in t.claims
  {
    assert Rank(t.sent[|s.sent|].loc, r0) == |s.sent|;
    forall l | l in s.claims ensures Rank(l, r0) < |s.sent| {
      assert ClaimOk(c, s, l, r0);
    }
  }

  /** Wherever the holder is in its handler, it can go on to publish. */
  lemma HolderPublishes(c: Config, s: State, topic: string, r0: nat) returns (t: State)
    requires Failing(c, s, topic, r0) && Held(s)
    ensures Path(c, s, t)
    ensures t.dlq != [] ||
            (Failing(c, t, topic, r0) && Frontier(t).loc !in t.claims && |t.sent| == |s.sent| + 1)
  {
    var u := s;
    PathSelf(c, s);
    if u.handlers[u.holder].phase.Running? {
      u := RunFails(c, s, topic, r0);
      PathKeepsFailing(c, s, u, topic, r0);
    }
    if u.handlers[u.holder].phase.Failed? {
      var v := ClaimFails(c, u, topic, r0);
      PathTransitive(c, s, u, v);
      u := v;
      PathKeepsFailing(c, s, u, topic, r0);
    }
    t := Published(c, u, topic, r0);
    PathTransitive(c, s, u, t);
    PathKeepsFailing(c, s, t, topic, r0);
    if t.dlq == [] { NextIsUnclaimed(c, u, t, topic, r0); }
  }

  /** A message on the last level is dead on arrival. */
  lemma LastLevelDies(c: Config, s: State, topic: string, r0: nat) returns (t: State)
    requires Failing(c, s, topic, r0) && !Workable(c, Frontier(s).loc)
    ensures Path(c, s, t) && t.dlq != []
  {
    var h := FreshId(s.handlers.Keys);
    assert MsgOk(c, s.sent[|s.sent| - 1], topic, r0);
    PathSelf(c, s);
    t := Walk(c, s, s, Deliver(h, |s.sent| - 1));
    t := Walk(c, s, t, Handle(h, Enter));
  }

  // ---- To the end ----

  /** From anywhere one more level is published, or the event is dead. */
  lemma Rung(c: Config, s: State, topic: string, r0: nat) returns (t: State)
    requires Failing(c, s, topic, r0)
    ensures Path(c, s, t)
    ensures t.dlq != [] || (Failing(c, t, topic, r0) && |t.sent| == |s.sent| + 1)
  {
    HeldOrOutstanding(c, s, topic, r0);
    if Held(s) {
      t := HolderPublishes(c, s, topic, r0);
    } else if Workable(c, Frontier(s).loc) {
      var u := ToRunning(c, s, topic, r0);
      PathKeepsFailing(c, s, u, topic, r0);
      t := HolderPublishes(c, u, topic, r0);
      PathTransitive(c, s, u, t);
    } else {
      t := LastLevelDies(c, s, topic, r0);
    }
  }

  /** There are no more messages than levels, and the one on the main topic. */
  lemma SentIsBounded(c: Config, s: State, topic: string, r0: nat)
    requires Core(c, s, topic, r0)
    ensures |s.sent| <= 1 + if r0 < c.maxRetries then c.maxRetries - r0 else 0
  {
    assert MsgOk(c, s.sent[|s.sent| - 1], topic, r0) && Rank(Frontier(s).loc, r0) == |s.sent| - 1;
  }

  lemma {:induction false} ClimbDown(c: Config, s: State, topic: string, r0: nat) returns (t: State)
    requires Failing(c, s, topic, r0)
    ensures Path(c, s, t) && t.dlq != []
    decreases c.maxRetries + 2 - |s.sent|
  {
    SentIsBounded(c, s, topic, r0);
    t := Rung(c, s, topic, r0);
    if t.dlq == [] {
      var u := ClimbDown(c, t, topic, r0);
      PathTransitive(c, s, t, u);
      t := u;
    }
  }

  /** The ladder terminates: wherever an event is that has failed transiently so far, whatever
      duplicates are under way, it can be driven on to the dead-letter queue, where
      AlwaysFailingIsExact counts its runs and publishes. */
  lemma AlwaysFailingReachesDlq(c: Config, topic: string, r0: nat, now: int, before: seq<Action>)
    returns (after: seq<Action>)
    requires WellFormed(c) && AlwaysTransient(before)
    ensures AlwaysTransient(after)
    ensures Exec(c, Exec(c, Init(topic, r0, now), before), after).dlq != []
  {
    var s := Exec(c, Init(topic, r0, now), before);
    EveryRunInv(c, topic, r0, now, before);
    RunStaysTransient(c, Init(topic, r0, now), before);
    if s.dlq != [] {
      after := [];
    } else {
      var t := ClimbDown(c, s, topic, r0);
      after :| AlwaysTransient(after) && Exec(c, s, after) == t;
    }
  }

  // ---- The no-level guard ----

  ghost predicate RanOutOfLevels(c: Config, topic: string, r0: nat, now: int, acts: seq<Action>) {
    Dead(topic + ".dlq", NoLevel) in Exec(c, Init(topic, r0, now), acts).dlq
  }

  /** The "no level" guard of sendToRetry can fire if and only if the event enters the ladder
      with a count that is already past its end. */
  lemma NoLevelIff(c: Config, topic: string, r0: nat, now: int)
    requires WellFormed(c)
    ensures (exists acts :: RanOutOfLevels(c, topic, r0, now, acts)) <==> r0 >= c.maxRetries
  {
    if r0 >= c.maxRetries {
      var acts := AlwaysFailingReachesDlq(c, topic, r0, now, []);
      var s := Exec(c, Init(topic, r0, now), acts);
      EveryRunInv(c, topic, r0, now, acts);
      RunStaysTransient(c, Init(topic, r0, now), acts);
      SentIsBounded(c, s, topic, r0);
      PastTheEnd(c, s, topic, r0);
      assert RanOutOfLevels(c, topic, r0, now, acts);
    } else {
      forall acts ensures !RanOutOfLevels(c, topic, r0, now, acts) {
        EveryRunInv(c, topic, r0, now, acts);
      }
    }
  }

  /** An event that never got a level died of that. */
  lemma PastTheEnd(c: Config, s: State, topic: string, r0: nat)
    requires Inv(c, s, topic, r0) && OnlyTransient(s) && s.dlq != [] && |s.sent| == 1
    ensures Dead(topic + ".dlq", NoLevel) in s.dlq
  {
    var d := s.dlq[0];
    assert d in s.dlq;
    assert Rank(s.sent[0].loc, r0) == 0 && MsgOk(c, s.sent[0], topic, r0);
    assert Frontier(s).loc.Main?;
    assert d.reason.NoLevel?;
  }

  // ---- One dead letter ----

  /** Every message is handed over at most once. */
  predicate NoRedelivery(acts: seq<Action>) {
    forall i, j :: 0 <= i < j < |acts| && acts[i].Deliver? && acts[j].Deliver? ==> acts[i].index != acts[j].index
  }

  predicate InHand(s: State, h: HandlerId, r0: nat, delivered: set<nat>)
    requires h in s.handlers
  {
    var rank := Rank(s.handlers[h].msg.loc, r0);
    && rank in delivered
    && forall k <- s.handlers :: Rank(s.handlers[k].msg.loc, r0) == rank ==> k == h
  }

  /** Each message is in one handler at most, and a dead letter was the last message's. */
  ghost predicate OnceOnly(s: State, r0: nat, delivered: set<nat>) {
    && (forall h <- s.handlers :: InHand(s, h, r0, delivered))
    && |s.dlq| <= 1
    && (s.dlq != [] ==>
          && |s.sent| > 0 && |s.sent| - 1 in delivered
          && forall h <- s.handlers :: Rank(s.handlers[h].msg.loc, r0) != |s.sent| - 1)
  }

  /** What one handler step can do: move its handler, end it with a dead letter, or end it with a
      message on the next level. */
  ghost predicate Moves(s: State, t: State) {
    && t.sent == s.sent && t.dlq == s.dlq
    && forall k <- t.handlers :: k in s.handlers && t.handlers[k].msg == s.handlers[k].msg
  }

  ghost predicate Dies(s: State, t: State, h: HandlerId, r0: nat) {
    && t.sent == s.sent && |t.dlq| == |s.dlq| + 1 && t.handlers == s.handlers - {h}
    && h in s.handlers && Rank(s.handlers[h].msg.loc, r0) == |s.sent| - 1
  }

  ghost predicate GoesOn(s: State, t: State, h: HandlerId) {
    |t.sent| == |s.sent| + 1 && s.dlq == [] && t.dlq == [] && t.handlers == s.handlers - {h}
  }

  lemma EnterShape(c: Config, s: State, h: HandlerId, topic: string, r0: nat)
    requires Core(c, s, topic, r0) && h in s.handlers
    ensures var t := HandlerStep(c, s, h, Enter); Moves(s, t) || Dies(s, t, h, r0)
  {
    assert HandlerOk(c, s, h, topic, r0);
    SentIsBounded(c, s, topic, r0);
  }

  lemma PublishShape(c: Config, s: State, h: HandlerId, topic: string, r0: nat)
    requires Core(c, s, topic, r0) && h in s.handlers
    ensures var t := HandlerStep(c, s, h, Publish); Moves(s, t) || Dies(s, t, h, r0) || GoesOn(s, t, h)
  {
    if s.handlers[h].phase.Publishing? {
      PublisherHolds(c, s, h, topic, r0);
      assert Rank(s.sent[|s.sent| - 1].loc, r0) == |s.sent| - 1;
    }
  }

  lemma FailShape(c: Config, s: State, h: HandlerId, topic: string, r0: nat)
    requires Core(c, s, topic, r0) && h in s.handlers
    ensures Moves(s, HandlerStep(c, s, h, FailClaim))
  {
    assert HandlerOk(c, s, h, topic, r0);
  }

  lemma StepShape(c: Config, s: State, h: HandlerId, op: Op, topic: string, r0: nat)
    requires Core(c, s, topic, r0) && h in s.handlers
    ensures var t := HandlerStep(c, s, h, op); Moves(s, t) || Dies(s, t, h, r0) || GoesOn(s, t, h)
  {
    match op
    case Enter => EnterShape(c, s, h, topic, r0);
    case Publish => PublishShape(c, s, h, topic, r0);
    case FailClaim => FailShape(c, s, h, topic, r0);
    case Wake =>
    case Claim =>
    case Process(_) =>
  }

  lemma ShapeKeepsOnce(s: State, t: State, h: HandlerId, r0: nat, delivered: set<nat>)
    requires OnceOnly(s, r0, delivered)
    requires Moves(s, t) || Dies(s, t, h, r0) || GoesOn(s, t, h)
    ensures OnceOnly(t, r0, delivered)
  {
    if h in s.handlers { assert InHand(s, h, r0, delivered); }
    forall k | k in t.handlers ensures InHand(t, k, r0, delivered) {
      assert InHand(s, k, r0, delivered);
    }
  }

  lemma DeliverKeepsOnce(c: Config, s: State, h: HandlerId, i: nat, topic: string, r0: nat, delivered: set<nat>)
    requires Core(c, s, topic, r0) && OnceOnly(s, r0, delivered) && i !in delivered
    ensures OnceOnly(Step(c, s, Deliver(h, i)), r0, delivered + {i})
  {
    var t := Step(c, s, Deliver(h, i));
    if t != s { assert Rank(s.sent[i].loc, r0) == i; }
    forall k | k in t.handlers ensures InHand(t, k, r0, delivered + {i}) {
      if k in s.handlers { assert InHand(s, k, r0, delivered); }
      forall l | l in s.handlers ensures Rank(s.handlers[l].msg.loc, r0) != i {
        assert InHand(s, l, r0, delivered);
      }
    }
  }

  lemma OtherStepKeepsOnce(c: Config, s: State, a: Action, topic: string, r0: nat, delivered: set<nat>)
    requires Core(c, s, topic, r0) && OnceOnly(s, r0, delivered) && !a.Deliver?
    ensures OnceOnly(Step(c, s, a), r0, delivered)
  {
    if a.Handle? && a.h in s.handlers {
      StepShape(c, s, a.h, a.op, topic, r0);
      ShapeKeepsOnce(s, Step(c, s, a), a.h, r0, delivered);
    } else {
      assert Moves(s, Step(c, s, a));
      ShapeKeepsOnce(s, Step(c, s, a), 0, r0, delivered);
    }
  }

  function Handed(a: Action, delivered: set<nat>): set<nat> {
    if a.Deliver? then delivered + {a.index} else delivered
  }

  lemma RestIsUndelivered(acts: seq<Action>, delivered: set<nat>)
    requires acts != [] && NoRedelivery(acts) && forall a <- acts :: a.Deliver? ==> a.index !in delivered
    ensures NoRedelivery(acts[1..])
    ensures forall a <- acts[1..] :: a.Deliver? ==> a.index !in Handed(acts[0], delivered)
  {}

  lemma {:induction false} RunKeepsOnce(c: Config, s: State, acts: seq<Action>, topic: string, r0: nat,
                                        delivered: set<nat>)
    requires Core(c, s, topic, r0) && OnceOnly(s, r0, delivered) && NoRedelivery(acts)
    requires forall a <- acts :: a.Deliver? ==> a.index !in delivered
    ensures |Exec(c, s, acts).dlq| <= 1
    decreases |acts|
  {
    if acts != [] {
      var a := acts[0];
      assert a in acts;
      StepKeepsCore(c, s, a, topic, r0);
      RestIsUndelivered(acts, delivered);
      if a.Deliver? {
        DeliverKeepsOnce(c, s, a.h, a.index, topic, r0, delivered);
      } else {
        OtherStepKeepsOnce(c, s, a, topic, r0, delivered);
      }
      RunKeepsOnce(c, Step(c, s, a), acts[1..], topic, r0, Handed(a, delivered));
    }
  }

  /** Without redelivery an event has at most one dead letter, whatever fails and however: exactly one
      when it is dead. */
  lemma OneDeadLetter(c: Config, topic: string, r0: nat, now: int, acts: seq<Action>)
    requires WellFormed(c) && NoRedelivery(acts)
    ensures |Exec(c, Init(topic, r0, now), acts).dlq| <= 1
  {
    EveryRunInv(c, topic, r0, now, []);
    RunKeepsOnce(c, Init(topic, r0, now), acts, topic, r0, {});
  }
}
