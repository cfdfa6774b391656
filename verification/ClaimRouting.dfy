/** Exactly when the claim protocol is safe: the completing update of idempotency.ts names no
    topic, so a group must not see one (event, retryCount) on two topics. */
module ClaimRouting {
  import opened Projections
  import opened Claims

  ghost predicate DrawnFrom(acts: seq<Action>, ds: iset<Delivery>) {
    forall a <- acts :: a.Deliver? ==> a.d in ds
  }

  /** No run over these deliveries commits twice for one claim. */
  ghost predicate SafeFor(ds: iset<Delivery>) {
    forall m, acts :: DrawnFrom(acts, ds) ==> DistinctKeys(Exec(Init(m), acts).log)
  }

  predicate SameRoute(c: Delivery, d: Delivery) {
    c.event.id == d.event.id && c.group == d.group && c.retryCount == d.retryCount
  }

  ghost predicate OneTopicEach(ds: iset<Delivery>) {
    forall c, d :: c in ds && d in ds && SameRoute(c, d) ==> c.topic == d.topic
  }

  ghost predicate Witness(ds: iset<Delivery>, d: Delivery, e: EventId, g: Group, r: int) {
    d in ds && d.event.id == e && d.group == g && d.retryCount == r
  }

  ghost function RouteOf(ds: iset<Delivery>): Routing {
    (e, g, r) =>
      if exists d :: Witness(ds, d, e, g, r)
      then (var d :| Witness(ds, d, e, g, r); d.topic) else ""
  }

  lemma OneTopicEachIsSafe(ds: iset<Delivery>)
    requires OneTopicEach(ds)
    ensures SafeFor(ds)
  {
    var route := RouteOf(ds);
    forall m, acts: seq<Action> | DrawnFrom(acts, ds) ensures DistinctKeys(Exec(Init(m), acts).log) {
      forall a: Action | a in acts && a.Deliver? ensures Routed(a.d, route) {
        assert Witness(ds, a.d, a.d.event.id, a.d.group, a.d.retryCount);
      }
      ClaimSafety(m, acts, route);
    }
  }

  /** The claim of `c` is left behind while its transaction completes the claim of `d`; once it
      is stale, a redelivery of `c` commits a second time. */
  function DoubleCommitRun(c: Delivery, d: Delivery): seq<Action> {
    [Deliver(0, c), Insert(0, 0), Deliver(1, d), Insert(1, 0), Begin(0), CommitTx(0, KeyOf(d))]
    + [Deliver(2, c), Insert(2, 0), Find(2, STALE_THRESHOLD_MS + 1), TakeOver(2, 0), Begin(2), CommitTx(2, KeyOf(c))]
  }

  lemma ExecCons(s: State, a: Action, rest: seq<Action>)
    ensures Exec(s, [a] + rest) == Exec(Step(s, a), rest)
  {
    assert ([a] + rest)[1..] == rest;
  }

  lemma {:induction false} ExecAppend(s: State, xs: seq<Action>, ys: seq<Action>)
    ensures Exec(s, xs + ys) == Exec(Exec(s, xs), ys)
    decreases |xs|
  {
    if xs == [] {
      assert xs + ys == ys;
    } else {
      assert xs + ys == [xs[0]] + (xs[1..] + ys);
      ExecCons(s, xs[0], xs[1..] + ys);
      ExecAppend(Step(s, xs[0]), xs[1..], ys);
    }
  }

  lemma Exec6(s: State, a1: Action, a2: Action, a3: Action, a4: Action, a5: Action, a6: Action)
    ensures Exec(s, [a1, a2, a3, a4, a5, a6]) == Step(Step(Step(Step(Step(Step(s, a1), a2), a3), a4), a5), a6)
  {
    var s1 := Step(s, a1);
    var s2 := Step(s1, a2);
    var s3 := Step(s2, a3);
    var s4 := Step(s3, a4);
    var s5 := Step(s4, a5);
    assert [a1, a2, a3, a4, a5, a6] == [a1] + [a2, a3, a4, a5, a6];
    ExecCons(s, a1, [a2, a3, a4, a5, a6]);
    assert [a2, a3, a4, a5, a6] == [a2] + [a3, a4, a5, a6];
    ExecCons(s1, a2, [a3, a4, a5, a6]);
    assert [a3, a4, a5, a6] == [a3] + [a4, a5, a6];
    ExecCons(s2, a3, [a4, a5, a6]);
    assert [a4, a5, a6] == [a4] + [a5, a6];
    ExecCons(s3, a4, [a5, a6]);
    assert [a5, a6] == [a5] + [a6];
    ExecCons(s4, a5, [a6]);
    ExecCons(s5, a6, []);
  }

  lemma FirstCommit(m: Summaries, c: Delivery, d: Delivery)
    requires SameRoute(c, d) && c.topic != d.topic
    ensures var t := Exec(Init(m), DoubleCommitRun(c, d)[..6]);
            && |t.log| == 1 && t.log[0].d == c && 2 !in t.workers
            && KeyOf(c) in t.db.claims && t.db.claims[KeyOf(c)] == FreshClaim(c.retryCount, 0)
  {
    var s := Init(m);
    assert DoubleCommitRun(c, d)[..6] ==
      [Deliver(0, c), Insert(0, 0), Deliver(1, d), Insert(1, 0), Begin(0), CommitTx(0, KeyOf(d))];
    Exec6(s, Deliver(0, c), Insert(0, 0), Deliver(1, d), Insert(1, 0), Begin(0), CommitTx(0, KeyOf(d)));
    var t4 := Step(Step(Step(Step(s, Deliver(0, c)), Insert(0, 0)), Deliver(1, d)), Insert(1, 0));
    assert t4.db.claims == map[KeyOf(c) := FreshClaim(c.retryCount, 0), KeyOf(d) := FreshClaim(d.retryCount, 0)];
  }

  lemma SecondCommit(s: State, c: Delivery, d: Delivery)
    requires 2 !in s.workers && KeyOf(c) in s.db.claims && s.db.claims[KeyOf(c)] == FreshClaim(c.retryCount, 0)
    ensures var t := Exec(s, DoubleCommitRun(c, d)[6..]);
            |t.log| == |s.log| + 1 && t.log[..|s.log|] == s.log && t.log[|s.log|].d == c
  {
    Exec6(s, Deliver(2, c), Insert(2, 0), Find(2, STALE_THRESHOLD_MS + 1), TakeOver(2, 0), Begin(2),
          CommitTx(2, KeyOf(c)));
    var u4 := Step(Step(Step(Step(s, Deliver(2, c)), Insert(2, 0)), Find(2, STALE_THRESHOLD_MS + 1)), TakeOver(2, 0));
    assert u4.workers[2] == Worker(c, Granted(1, 1));
  }

  lemma TwoTopicsCommitTwice(m: Summaries, c: Delivery, d: Delivery)
    requires SameRoute(c, d) && c.topic != d.topic
    ensures !DistinctKeys(Exec(Init(m), DoubleCommitRun(c, d)).log)
  {
    var run := DoubleCommitRun(c, d);
    FirstCommit(m, c, d);
    SecondCommit(Exec(Init(m), run[..6]), c, d);
    assert run == run[..6] + run[6..];
    ExecAppend(Init(m), run[..6], run[6..]);
    var log := Exec(Init(m), run).log;
    assert log[0] == log[..1][0];
    assert KeyOf(log[0].d) == KeyOf(log[1].d);
  }

  /** At-most-once holds in every run if and only if no event reaches a group on two topics with
      the same retryCount. */
  lemma SafeIffOneTopicEach(ds: iset<Delivery>)
    ensures SafeFor(ds) <==> OneTopicEach(ds)
  {
    if OneTopicEach(ds) {
      OneTopicEachIsSafe(ds);
    } else {
      var c, d :| c in ds && d in ds && SameRoute(c, d) && c.topic != d.topic;
      TwoTopicsCommitTwice(map[], c, d);
      assert DrawnFrom(DoubleCommitRun(c, d), ds);
    }
  }
}
