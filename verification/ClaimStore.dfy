/** The same protocol in the form of the source: a handler that works on the collections in
    place (idempotency.ts, mongo.wrapper.ts, projection.consumer.ts, transfer.consumer.ts). */
module ClaimStore {
  import opened Projections
  import opened Claims
  import opened ClaimRouting

  datatype Decision = PROCESSED(version: nat) | RETRY(version: nat) | SKIP

  /** What the server and the processor do with one attempt of a transaction. */
  datatype Answer =
    | BodyThrows(transient: bool)
    // `unknowns` commit commands get an unknown result first; `reached` says whether the
    // server had executed them.
    | Acked(unknowns: nat, reached: bool)
    | CommitError(reached: bool, transient: bool)

  /** The documents a commit installs: computed on the snapshot, so installing them again
      changes nothing. */
  function Applied(db: Db, d: Delivery, k: Key): Db
    requires k in db.claims
  {
    Db(db.claims[k := Completed(db.claims[k])], Apply(db.summaries, d.event.body))
  }

  predicate Stale(c: Claim, now: int) { c.status.PROCESSING? && now - c.updatedAt > STALE_THRESHOLD_MS }

  class Database {
    var claims: ClaimMap
    var summaries: Summaries

    ghost function View(): Db reads this { Db(claims, summaries) }

    constructor ()
      ensures claims == map[] && summaries == map[]
    {
      claims, summaries := map[], map[];
    }

    method InitIdempotency(d: Delivery, now: int) returns (r: Decision)
      modifies this
      ensures summaries == old(summaries)
      ensures KeyOf(d) !in old(claims) ==>
                r == PROCESSED(0) && claims == old(claims)[KeyOf(d) := Claim(PROCESSING, 0, d.retryCount, now)]
      ensures KeyOf(d) in old(claims) && !Visible(old(claims), KeyOf(d), d.retryCount) ==>
                r == PROCESSED(0) && claims == old(claims)
      ensures Visible(old(claims), KeyOf(d), d.retryCount) && Stale(old(claims)[KeyOf(d)], now) ==>
                var version := old(claims)[KeyOf(d)].version + 1;
                && r == RETRY(version)
                && claims == old(claims)[KeyOf(d) := Claim(PROCESSING, version, d.retryCount, now)]
      ensures Visible(old(claims), KeyOf(d), d.retryCount) && !Stale(old(claims)[KeyOf(d)], now) ==>
                r == SKIP && claims == old(claims)
    {
      var k := KeyOf(d);
      if k !in claims {
        claims := claims[k := FreshClaim(d.retryCount, now)];
        return PROCESSED(0);
      }
      if !Visible(claims, k, d.retryCount) {
        return PROCESSED(0);
      }
      var existing := claims[k];
      match existing.status {
        case COMPLETED => return SKIP;
        case PROCESSING =>
          if now - existing.updatedAt > STALE_THRESHOLD_MS {
            // Nobody else moves here, so the versioned update finds the record as it was read.
            claims := claims[k := TakenOver(existing, now)];
            return RETRY(existing.version + 1);
          }
          return SKIP;
        case FAILED => return SKIP;
      }
    }

    /** The claim that `completeIdempotency` would match, if any. */
    method FindCompletable(d: Delivery, version: nat) returns (found: bool, k: Key)
      ensures found ==> CompletionMatches(claims, d, version, k)
      ensures !found ==> forall j :: !CompletionMatches(claims, d, version, j)
    {
      k := KeyOf(d);
      found := exists j <- claims :: CompletionMatches(claims, d, version, j);
      if found {
        k :| k in claims && CompletionMatches(claims, d, version, k);
      }
    }

    method FailIdempotency(d: Delivery, version: nat, now: int)
      modifies this
      ensures summaries == old(summaries)
      ensures claims == AfterFail(old(claims), KeyOf(d), d.retryCount, version, now)
    {
      if Visible(claims, KeyOf(d), d.retryCount) && claims[KeyOf(d)].version == version {
        claims := claims[KeyOf(d) := Claim(FAILED, version + 1, d.retryCount, now)];
      }
    }

    /** `commitTransaction` repeated while its result is unknown. */
    method CommitLoop(d: Delivery, k: Key, unknowns: nat, reached: bool)
      requires k in claims
      modifies this
      ensures View() == Applied(old(View()), d, k)
    {
      ghost var snap := View();
      var install := Db(claims[k := Completed(claims[k])], Apply(summaries, d.event.body));
      var pending := unknowns;
      var committed := false;
      while !committed
        invariant View() == snap || View() == install
        invariant committed ==> View() == install
        decreases pending + if committed then 0 else 1
      {
        if pending > 0 {
          if reached {
            claims, summaries := install.claims, install.summaries;
          }
          pending := pending - 1;
        } else {
          claims, summaries := install.claims, install.summaries;
          committed := true;
        }
        if committed { break; }
      }
    }

    /** One attempt: the processor and completeIdempotency inside a transaction, and its commit. The
        ghost state `t` is where the step machine stands after doing the same from `m`. */
    method RunAttempt(d: Delivery, version: nat, attempt: nat, answer: Answer,
                      ghost route: Routing, ghost s: State, ghost m: State)
      returns (ok: bool, transient: bool, ghost t: State)
      requires ClaimsRouted(claims, route) && Routed(d, route)
      requires Reaches(s, m) && Mirrors(m, View(), d) && m.workers[0].phase == Granted(version, attempt)
      modifies this
      ensures Reaches(s, t) && Mirrors(t, View(), d)
      ensures (t.workers[0].phase.InTx? || t.workers[0].phase.Written?) &&
              t.workers[0].phase.version == version && t.workers[0].phase.attempt == attempt
      ensures ok <==> answer.Acked? && CompletionMatches(old(claims), d, version, KeyOf(d))
      ensures ok ==> !transient
      ensures transient <==>
                || answer == BodyThrows(true)
                || (answer.CommitError? && answer.transient && CompletionMatches(old(claims), d, version, KeyOf(d)))
      ensures View() ==
                if CompletionMatches(old(claims), d, version, KeyOf(d)) && !WritesNothing(answer)
                then Applied(old(View()), d, KeyOf(d)) else old(View())
    {
      ok, transient := false, false;
      var found, k := FindCompletable(d, version);
      if found {
        CompletionIsOwn(claims, d, version, k, route);
        TransactionStepsAgree(m, 0, version, attempt, k);
      }
      t := Walk(s, m, Begin(0));
      match answer {
        case BodyThrows(b) => transient := b;
        case Acked(unknowns, reached) =>
          if found {
            CommitLoop(d, k, unknowns, reached);
            t := Walk(s, t, CommitTx(0, k));
            ok := true;
          }
        case CommitError(reached, b) =>
          if found {
            if reached {
              CommitLoop(d, k, 0, true);
              t := Walk(s, t, CommitTx(0, k));
            }
            transient := b;
          }
      }
    }

    /** The bounded retry loop around the attempts. Whatever replies are lost, the writes are applied
        at most once, and they are applied if it returns; it returns exactly if the first attempt is
        acknowledged, or failed transiently without a trace and the second one is. */
    method WithMongoTransaction(d: Delivery, version: nat, answers: nat -> Answer,
                                ghost route: Routing, ghost s: State, ghost m: State)
      returns (ok: bool, ghost t: State)
      requires ClaimsRouted(claims, route) && Routed(d, route)
      requires Reaches(s, m) && Mirrors(m, View(), d) && m.workers[0].phase == Granted(version, 1)
      modifies this
      ensures Reaches(s, t) && Mirrors(t, View(), d) && InAttempt(t.workers[0].phase, version)
      ensures ok <==>
                && CompletionMatches(old(claims), d, version, KeyOf(d))
                && Acknowledged(answers(1), answers(2))
      ensures View() ==
                if CompletionMatches(old(claims), d, version, KeyOf(d)) && WritesSomething(answers(1), answers(2))
                then Applied(old(View()), d, KeyOf(d)) else old(View())
    {
      ok, t := false, m;
      ghost var matches := CompletionMatches(claims, d, version, KeyOf(d));
      var attempt := 1;
      while attempt <= MAX_MONGO_TX_RETRIES
        invariant 1 <= attempt <= MAX_MONGO_TX_RETRIES + 1
        invariant !ok
        invariant Reaches(s, t) && Mirrors(t, View(), d) && InAttempt(t.workers[0].phase, version)
        invariant attempt <= MAX_MONGO_TX_RETRIES ==> t.workers[0].phase == Granted(version, attempt)
        invariant ClaimsRouted(claims, route)
        invariant attempt == 1 ==> View() == old(View())
        invariant attempt == 2 ==>
                    && (if matches then answers(1) != BodyThrows(false) && !answers(1).Acked?
                        else answers(1) == BodyThrows(true))
                    && (answers(1).CommitError? ==> answers(1).transient)
                    && View() == AfterAttempts(old(View()), d, KeyOf(d), matches, !WritesNothing(answers(1)))
        invariant attempt == 3 ==>
                    && (matches ==> !Acknowledged(answers(1), answers(2)))
                    && View() == AfterAttempts(old(View()), d, KeyOf(d), matches,
                                               WritesSomething(answers(1), answers(2)))
      {
        var transient;
        ok, transient, t := RunAttempt(d, version, attempt, answers(attempt), route, s, t);
        if ok || !transient {
          return;
        }
        if attempt < MAX_MONGO_TX_RETRIES {
          t := Walk(s, t, Retry(0));
        }
        attempt := attempt + 1;
      }
    }

    /** The handler's work once it holds a claim; `fails` says whether it fails the claim after an error,
        as the main consumers do, or leaves it, as the projection consumer does. */
    method ProcessClaimed(d: Delivery, version: nat, now: int, answers: nat -> Answer, fails: bool,
                          ghost route: Routing, ghost s: State, ghost m: State)
      returns (ok: bool, ghost t: State)
      requires ClaimsRouted(claims, route) && Routed(d, route)
      requires Reaches(s, m) && Mirrors(m, View(), d) && m.workers[0].phase == Granted(version, 1)
      modifies this
      ensures Reaches(s, t) && t.db == View()
      ensures ok <==> CompletionMatches(old(claims), d, version, KeyOf(d)) && Acknowledged(answers(1), answers(2))
      ensures var matches := CompletionMatches(old(claims), d, version, KeyOf(d));
              View() == AfterProcessing(old(View()), d, version, now, matches,
                                        WritesSomething(answers(1), answers(2)), fails)
    {
      ghost var before := View();
      ghost var matches := CompletionMatches(claims, d, version, KeyOf(d));
      ok, t := WithMongoTransaction(d, version, answers, route, s, m);
      SettlesOnce(before, d, version, now, matches, WritesSomething(answers(1), answers(2)), ok);
      if !ok && fails {
        FailIdempotency(d, version, now);
        t := FailSteps(s, t, d, version, now);
      }
    }

    /** One uninterrupted run of a consumer's message handler. It is a run of the step machine, so
        everything proved about all interleavings holds of it. */
    method EachMessage(d: Delivery, now: int, answers: nat -> Answer, fails: bool, ghost route: Routing)
      returns (r: Decision, ok: bool)
      requires ClaimsRouted(claims, route) && Routed(d, route)
      modifies this
      ensures r.SKIP? <==> Visible(old(claims), KeyOf(d), d.retryCount) && !Stale(old(claims)[KeyOf(d)], now)
      ensures ok <==> IsGranted(old(claims), d, now) && Acknowledged(answers(1), answers(2))
      ensures Settled(old(View()), View(), d, now, WritesSomething(answers(1), answers(2)), fails)
      ensures Follows(old(View()), View())
    {
      ok := false;
      ghost var before, s := View(), Idle(View());
      ghost var t := ClaimSteps(View(), d, now);
      r := InitIdempotency(d, now);
      if r.SKIP? {
        assert t.db == View();
        return;
      }
      ProcessingSettles(before, View(), d, r.version, now, WritesSomething(answers(1), answers(2)), fails);
      ok, t := ProcessClaimed(d, r.version, now, answers, fails, route, s, t);
      assert t.db == View() && Reaches(s, t);
    }
  }

  /** The effect is applied exactly if the delivery got a claim and some attempt's writes got through, and
      then the claim is COMPLETED; otherwise it is FAILED or left. Nothing else changes. */
  predicate Settled(before: Db, after: Db, d: Delivery, now: int, written: bool, fails: bool) {
    var k := KeyOf(d);
    if !IsGranted(before.claims, d, now) then after == before
    else
      && after.summaries == (if written then Apply(before.summaries, d.event.body) else before.summaries)
      && k in after.claims && after.claims == before.claims[k := after.claims[k]]
      && after.claims[k].retryCount == d.retryCount
      && after.claims[k].status == (if written then COMPLETED else if fails then FAILED else PROCESSING)
  }

  /** The documents of a delivery that has been given its claim, or proceeds without one. */
  predicate Admitted(before: Db, db: Db, d: Delivery, version: nat, now: int) {
    var k := KeyOf(d);
    && db.summaries == before.summaries
    && (if IsGranted(before.claims, d, now)
        then db.claims == before.claims[k := Claim(PROCESSING, version, d.retryCount, now)]
        else db.claims == before.claims && !Visible(before.claims, k, d.retryCount))
  }

  lemma ProcessingSettles(before: Db, db: Db, d: Delivery, version: nat, now: int, written: bool, fails: bool)
    requires Admitted(before, db, d, version, now)
    ensures CompletionMatches(db.claims, d, version, KeyOf(d)) <==> IsGranted(before.claims, d, now)
    ensures Settled(before, AfterProcessing(db, d, version, now, IsGranted(before.claims, d, now), written, fails),
                    d, now, written, fails)
  {
    var after := AfterProcessing(db, d, version, now, IsGranted(before.claims, d, now), written, fails);
    if IsGranted(before.claims, d, now) {
      assert after.claims == before.claims[KeyOf(d) := after.claims[KeyOf(d)]];
    }
  }

  /** What the transaction and, after an error, the failing update leave. */
  function AfterProcessing(db: Db, d: Delivery, version: nat, now: int, matches: bool, written: bool,
                           fails: bool): Db
    requires matches ==> KeyOf(d) in db.claims
  {
    if !matches then
      if fails then db.(claims := AfterFail(db.claims, KeyOf(d), d.retryCount, version, now)) else db
    else if written then Applied(db, d, KeyOf(d))
    else if fails then db.(claims := db.claims[KeyOf(d) := Claim(FAILED, version + 1, d.retryCount, now)])
    else db
  }

  /** After a commit the failing update finds nothing: the version has moved. */
  lemma SettlesOnce(db: Db, d: Delivery, version: nat, now: int, matches: bool, written: bool, ok: bool)
    requires matches <==> CompletionMatches(db.claims, d, version, KeyOf(d))
    requires ok ==> matches && written
    ensures var after := AfterAttempts(db, d, KeyOf(d), matches, written);
            AfterProcessing(db, d, version, now, matches, written, true) ==
            after.(claims := AfterFail(after.claims, KeyOf(d), d.retryCount, version, now))
  {}

  predicate WritesNothing(a: Answer) { a.BodyThrows? || (a.CommitError? && !a.reached) }

  /** The attempt left nothing behind and will be repeated. */
  predicate TriedInVain(a: Answer) { a == BodyThrows(true) || a == CommitError(false, true) }

  /** The second attempt counts only if the first one was in vain. */
  predicate Acknowledged(first: Answer, second: Answer) { first.Acked? || (TriedInVain(first) && second.Acked?) }

  predicate WritesSomething(first: Answer, second: Answer) {
    !WritesNothing(first) || (TriedInVain(first) && !WritesNothing(second))
  }

  /** The delivery gets a claim of its own: a new one, or a stale one under its count. */
  predicate IsGranted(cs: ClaimMap, d: Delivery, now: int) {
    KeyOf(d) !in cs || (Visible(cs, KeyOf(d), d.retryCount) && Stale(cs[KeyOf(d)], now))
  }

  function AfterAttempts(db: Db, d: Delivery, k: Key, matches: bool, written: bool): Db
    requires matches ==> k in db.claims
  {
    if matches && written then Applied(db, d, k) else db
  }

  // ---- Following the step machine ----

  ghost function Idle(db: Db): State { State(db, map[], [], []) }

  /** Some run of the machine that starts with these documents and nobody at work ends with those. */
  ghost predicate Follows(before: Db, after: Db) { exists t: State :: t.db == after && Reaches(Idle(before), t) }

  ghost predicate Reaches(s: State, t: State) { exists acts :: Exec(s, acts) == t }

  /** The machine holds the same documents, and its worker 0 carries this message. */
  ghost predicate Mirrors(s: State, db: Db, d: Delivery) {
    s.db == db && 0 in s.workers && s.workers[0].d == d
  }

  predicate InAttempt(p: Phase, version: nat) {
    (p.Granted? || p.InTx? || p.Written?) && p.version == version
  }

  lemma ReachesSelf(s: State)
    ensures Reaches(s, s)
  {
    assert Exec(s, []) == s;
  }

  lemma ReachesTransitive(s: State, m: State, t: State)
    requires Reaches(s, m) && Reaches(m, t)
    ensures Reaches(s, t)
  {
    var xs :| Exec(s, xs) == m;
    var ys :| Exec(m, ys) == t;
    ExecAppend(s, xs, ys);
  }

  ghost function Walk(s: State, t: State, a: Action): (r: State)
    requires Reaches(s, t)
    ensures r == Step(t, a) && Reaches(s, r)
  {
    assert Exec(t, [a]) == Step(t, a) by { ExecCons(t, a, []); }
    ReachesTransitive(s, t, Step(t, a));
    Step(t, a)
  }

  /** The uninterrupted claim is what the machine's claim steps do when nobody else moves. */
  lemma ClaimStepsAgree(s: State, w: WorkerId, d: Delivery, now: int)
    requires w !in s.workers
    ensures
      var k := KeyOf(d);
      var s' := Step(Step(Step(Step(s, Deliver(w, d)), Insert(w, now)), Find(w, now)), TakeOver(w, now));
      var cs := s.db.claims;
      && s'.db.summaries == s.db.summaries
      && (w in s'.workers ==> s'.workers[w].d == d)
      && (k !in cs ==>
            && s'.db.claims == cs[k := FreshClaim(d.retryCount, now)]
            && w in s'.workers && s'.workers[w].phase == Granted(0, 1))
      && (k in cs && !Visible(cs, k, d.retryCount) ==>
            s'.db == s.db && w in s'.workers && s'.workers[w].phase == Granted(0, 1))
      && (Visible(cs, k, d.retryCount) && Stale(cs[k], now) ==>
            && s'.db.claims == cs[k := TakenOver(cs[k], now)]
            && w in s'.workers && s'.workers[w].phase == Granted(cs[k].version + 1, 1))
      && (Visible(cs, k, d.retryCount) && !Stale(cs[k], now) ==> s'.db == s.db && w !in s'.workers)
  {
    var s1 := Step(s, Deliver(w, d));
    assert s1.workers[w] == Worker(d, Inserting);
    var s2 := Step(s1, Insert(w, now));
    assert s2.workers[w].d == d;
  }

  /** The uninterrupted transaction is the machine's begin and commit. */
  lemma TransactionStepsAgree(s: State, w: WorkerId, version: nat, attempt: nat, k: Key)
    requires w in s.workers && s.workers[w].phase == Granted(version, attempt)
    requires CompletionMatches(s.db.claims, s.workers[w].d, version, k)
    ensures Step(Step(s, Begin(w)), CommitTx(w, k)).db == Applied(s.db, s.workers[w].d, k)
  {
    ApplyFrame(s.db.summaries, s.db.summaries, s.workers[w].d.event.body);
  }

  lemma ClaimSteps(db: Db, d: Delivery, now: int) returns (t: State)
    ensures Reaches(Idle(db), t)
    ensures
      var k := KeyOf(d);
      && t.db.summaries == db.summaries
      && (k !in db.claims ==>
            t.db.claims == db.claims[k := FreshClaim(d.retryCount, now)]
            && Mirrors(t, t.db, d) && t.workers[0].phase == Granted(0, 1))
      && (k in db.claims && !Visible(db.claims, k, d.retryCount) ==>
            t.db == db && Mirrors(t, t.db, d) && t.workers[0].phase == Granted(0, 1))
      && (Visible(db.claims, k, d.retryCount) && Stale(db.claims[k], now) ==>
            t.db.claims == db.claims[k := TakenOver(db.claims[k], now)]
            && Mirrors(t, t.db, d) && t.workers[0].phase == Granted(db.claims[k].version + 1, 1))
      && (Visible(db.claims, k, d.retryCount) && !Stale(db.claims[k], now) ==> t.db == db)
  {
    var s := Idle(db);
    ReachesSelf(s);
    ClaimStepsAgree(s, 0, d, now);
    t := Walk(s, s, Deliver(0, d));
    t := Walk(s, t, Insert(0, now));
    t := Walk(s, t, Find(0, now));
    t := Walk(s, t, TakeOver(0, now));
  }

  lemma FailSteps(s: State, m: State, d: Delivery, version: nat, now: int) returns (t: State)
    requires Reaches(s, m) && Mirrors(m, m.db, d) && InAttempt(m.workers[0].phase, version)
    ensures Reaches(s, t)
    ensures t.db == m.db.(claims := AfterFail(m.db.claims, KeyOf(d), d.retryCount, version, now))
  {
    t := Walk(s, m, Throw(0));
    t := Walk(s, t, Fail(0, now));
  }
}
