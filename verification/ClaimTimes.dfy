/** How long a claim protects its holder: takeovers under a clock that does not go back
    (idempotency.ts, the stale branch of initIdempotency). */
module ClaimTimes {
  import opened Projections
  import opened Claims

  function TimeOf(a: Action, clock: int): int {
    if a.Insert? || a.Find? || a.TakeOver? || a.Fail? then a.now else clock
  }

  /** The times read in the run never go back. */
  predicate Timely(clock: int, acts: seq<Action>)
    decreases |acts|
  {
    acts != [] ==> clock <= TimeOf(acts[0], clock) && Timely(TimeOf(acts[0], clock), acts[1..])
  }

  function ClockAfter(clock: int, acts: seq<Action>): int
    decreases |acts|
  {
    if acts == [] then clock else ClockAfter(TimeOf(acts[0], clock), acts[1..])
  }

  // ---- The inductive invariant ----

  predicate Stamped(gs: seq<Grant>, cs: ClaimMap, clock: int) {
    && (forall g <- gs :: g.key in cs && g.at <= cs[g.key].updatedAt)
    && forall k <- cs :: cs[k].updatedAt <= clock
  }

  ghost predicate GrantedAt(gs: seq<Grant>, k: Key, at: int) { exists g <- gs :: g.key == k && g.at == at }

  ghost predicate OnRecord(gs: seq<Grant>, k: Key) { exists g <- gs :: g.key == k }

  /** Every record was handed out when it was made, and one still PROCESSING was handed out when it
      was last touched. */
  ghost predicate HandedOut(gs: seq<Grant>, cs: ClaimMap) {
    && (forall k <- cs :: OnRecord(gs, k))
    && forall k <- cs :: cs[k].status.PROCESSING? ==> GrantedAt(gs, k, cs[k].updatedAt)
  }

  /** A worker about to take over saw a stale claim, and the claim is as it saw it if its version is. */
  predicate TakerOk(cs: ClaimMap, w: Worker, clock: int) {
    w.phase.TakingOver? ==>
      && KeyOf(w.d) in cs && w.phase.seen <= cs[KeyOf(w.d)].version
      && (cs[KeyOf(w.d)].status.PROCESSING? && cs[KeyOf(w.d)].version == w.phase.seen ==>
            clock - cs[KeyOf(w.d)].updatedAt > STALE_THRESHOLD_MS)
  }

  predicate TakersOk(cs: ClaimMap, ws: map<WorkerId, Worker>, clock: int) {
    forall w <- ws :: TakerOk(cs, ws[w], clock)
  }

  predicate Apart(gs: seq<Grant>) {
    forall i, j :: 0 <= i < j < |gs| && gs[i].key == gs[j].key ==> gs[j].at - gs[i].at > STALE_THRESHOLD_MS
  }

  ghost predicate TimesOk(s: State, clock: int) {
    && Stamped(s.grants, s.db.claims, clock)
    && HandedOut(s.grants, s.db.claims)
    && TakersOk(s.db.claims, s.workers, clock)
    && Apart(s.grants)
  }

  /** Claims that move on: nothing is removed, a version that stays means a claim that stays, unless it
      leaves PROCESSING. */
  predicate MovesOn(cs: ClaimMap, cs': ClaimMap) {
    forall k <- cs :: k in cs' && (cs'[k] == cs[k] || cs'[k].version > cs[k].version)
  }

  lemma MovingKeepsTakers(cs: ClaimMap, cs': ClaimMap, ws: map<WorkerId, Worker>, clock: int, now: int)
    requires MovesOn(cs, cs') && TakersOk(cs, ws, clock) && clock <= now
    ensures TakersOk(cs', ws, now)
  {
    forall w | w in ws ensures TakerOk(cs', ws[w], now) {
      assert TakerOk(cs, ws[w], clock);
    }
  }

  /** No worker is about to take over that was not before. */
  predicate NoNewTakers(ws: map<WorkerId, Worker>, ws': map<WorkerId, Worker>) {
    forall w <- ws' :: ws'[w].phase.TakingOver? ==> w in ws && ws[w] == ws'[w]
  }

  lemma TakersChange(cs: ClaimMap, cs': ClaimMap, ws: map<WorkerId, Worker>, ws': map<WorkerId, Worker>,
                     clock: int, now: int)
    requires MovesOn(cs, cs') && TakersOk(cs, ws, clock) && clock <= now
    requires NoNewTakers(ws, ws')
    ensures TakersOk(cs', ws', now)
  {
    MovingKeepsTakers(cs, cs', ws, clock, now);
    forall w | w in ws' ensures TakerOk(cs', ws'[w], now) {
      if ws'[w].phase.TakingOver? { assert TakerOk(cs', ws[w], now); }
    }
  }

  lemma OneMoreGrant(gs: seq<Grant>, g: Grant, cs: ClaimMap, k: Key)
    ensures OnRecord(gs, k) ==> OnRecord(gs + [g], k)
    ensures OnRecord(gs + [g], g.key) && GrantedAt(gs + [g], g.key, g.at)
    ensures forall at :: GrantedAt(gs, k, at) ==> GrantedAt(gs + [g], k, at)
  {
    assert (gs + [g])[|gs|] == g;
    assert forall h <- gs :: h in gs + [g];
  }

  /** Handing out a record that is new, or whose last stamp is too old. */
  lemma GrantKeepsTimes(gs: seq<Grant>, cs: ClaimMap, k: Key, c: Claim, now: int, clock: int)
    requires Stamped(gs, cs, clock) && HandedOut(gs, cs) && Apart(gs) && clock <= now
    requires c.updatedAt == now
    requires k in cs ==> now - cs[k].updatedAt > STALE_THRESHOLD_MS
    ensures var after, out := cs[k := c], gs + [Grant(k, c.version, now)];
            Stamped(out, after, now) && HandedOut(out, after) && Apart(out)
  {
    var after, g := cs[k := c], Grant(k, c.version, now);
    var out := gs + [g];
    forall j | j in after
      ensures OnRecord(out, j) && (after[j].status.PROCESSING? ==> GrantedAt(out, j, after[j].updatedAt))
    {
      OneMoreGrant(gs, g, cs, j);
    }
    forall h | h in out ensures h.key in after && h.at <= after[h.key].updatedAt {
      assert h in gs || h == g;
    }
    forall i | 0 <= i < |gs| && gs[i].key == k ensures now - gs[i].at > STALE_THRESHOLD_MS {
      assert gs[i] in gs;
    }
  }

  lemma InsertKeepsTimes(s: State, w: WorkerId, now: int, clock: int)
    requires TimesOk(s, clock) && clock <= now
    ensures TimesOk(Step(s, Insert(w, now)), now)
  {
    var t := Step(s, Insert(w, now));
    assert MovesOn(s.db.claims, t.db.claims);
    TakersChange(s.db.claims, t.db.claims, s.workers, t.workers, clock, now);
    if t.grants != s.grants {
      var d := s.workers[w].d;
      GrantKeepsTimes(s.grants, s.db.claims, KeyOf(d), FreshClaim(d.retryCount, now), now, clock);
    }
  }

  lemma FindKeepsTimes(s: State, w: WorkerId, now: int, clock: int)
    requires TimesOk(s, clock) && clock <= now
    ensures TimesOk(Step(s, Find(w, now)), now)
  {
    MovingKeepsTakers(s.db.claims, s.db.claims, s.workers, clock, now);
  }

  lemma TakeOverEffect(s: State, w: WorkerId, now: int)
    ensures var t := Step(s, TakeOver(w, now));
            && NoNewTakers(s.workers, t.workers)
            && (t.grants == s.grants ==> t.db.claims == s.db.claims)
            && (t.grants != s.grants ==>
                  && w in s.workers && s.workers[w].phase.TakingOver?
                  && var k, seen := KeyOf(s.workers[w].d), s.workers[w].phase.seen;
                     && Claimable(s.db.claims, k, s.workers[w].d.retryCount, seen)
                     && t.db.claims == s.db.claims[k := TakenOver(s.db.claims[k], now)]
                     && t.grants == s.grants + [Grant(k, seen + 1, now)])
  {}

  lemma TakeOverMovesOn(cs: ClaimMap, k: Key, now: int)
    requires k in cs
    ensures MovesOn(cs, cs[k := TakenOver(cs[k], now)])
  {}

  lemma TakeOverKeepsTimes(s: State, w: WorkerId, now: int, clock: int)
    requires TimesOk(s, clock) && clock <= now
    ensures TimesOk(Step(s, TakeOver(w, now)), now)
  {
    var t := Step(s, TakeOver(w, now));
    TakeOverEffect(s, w, now);
    if t.grants != s.grants {
      var k := KeyOf(s.workers[w].d);
      assert TakerOk(s.db.claims, s.workers[w], clock);
      GrantKeepsTimes(s.grants, s.db.claims, k, TakenOver(s.db.claims[k], now), now, clock);
      TakeOverMovesOn(s.db.claims, k, now);
    }
    TakersChange(s.db.claims, t.db.claims, s.workers, t.workers, clock, now);
  }

  /** Steps that hand nothing out: a claim that changes is settled, and stamped now at the latest. */
  predicate Settles(cs: ClaimMap, cs': ClaimMap, now: int) {
    && cs'.Keys == cs.Keys
    && forall k <- cs :: cs'[k] == cs[k] || SettledFrom(cs[k], cs'[k], now)
  }

  predicate SettledFrom(c: Claim, c': Claim, now: int) {
    c'.version > c.version && !c'.status.PROCESSING? && (c'.updatedAt == c.updatedAt || c'.updatedAt == now)
  }

  lemma OtherStepEffect(s: State, a: Action, now: int)
    requires !a.Insert? && !a.Find? && !a.TakeOver? && (a.Fail? ==> a.now == now)
    ensures var t := Step(s, a);
            t.grants == s.grants && NoNewTakers(s.workers, t.workers) && Settles(s.db.claims, t.db.claims, now)
  {}

  lemma OtherStepKeepsTimes(s: State, a: Action, clock: int)
    requires TimesOk(s, clock) && !a.Insert? && !a.Find? && !a.TakeOver? && clock <= TimeOf(a, clock)
    ensures TimesOk(Step(s, a), TimeOf(a, clock))
  {
    var t, now := Step(s, a), TimeOf(a, clock);
    OtherStepEffect(s, a, now);
    TakersChange(s.db.claims, t.db.claims, s.workers, t.workers, clock, now);
    assert forall g <- s.grants :: g.at <= clock;
  }

  lemma StepKeepsTimes(s: State, a: Action, clock: int)
    requires TimesOk(s, clock) && clock <= TimeOf(a, clock)
    ensures TimesOk(Step(s, a), TimeOf(a, clock))
  {
    match a
    case Insert(w, now) => InsertKeepsTimes(s, w, now, clock);
    case Find(w, now) => FindKeepsTimes(s, w, now, clock);
    case TakeOver(w, now) => TakeOverKeepsTimes(s, w, now, clock);
    case _ => OtherStepKeepsTimes(s, a, clock);
  }

  lemma {:induction false} RunKeepsTimes(s: State, acts: seq<Action>, clock: int)
    requires TimesOk(s, clock) && Timely(clock, acts)
    ensures TimesOk(Exec(s, acts), ClockAfter(clock, acts))
    decreases |acts|
  {
    if acts != [] {
      StepKeepsTimes(s, acts[0], clock);
      RunKeepsTimes(Step(s, acts[0]), acts[1..], TimeOf(acts[0], clock));
    }
  }

  // ---- What a claim protects ----

  /** In every run under a monotone clock, two claims handed out on one record are more than three
      minutes apart, whoever takes over from whom. */
  lemma GrantsAreApart(m: Summaries, acts: seq<Action>, clock: int)
    requires Timely(clock, acts)
    ensures var gs := Exec(Init(m), acts).grants;
            forall i, j :: 0 <= i < j < |gs| && gs[i].key == gs[j].key ==> gs[j].at - gs[i].at > 180_000
  {
    RunKeepsTimes(Init(m), acts, clock);
  }

  /** Every claim ever handed out on the record is older than three minutes. */
  predicate AllOld(gs: seq<Grant>, k: Key, now: int) { forall g <- gs :: g.key == k ==> now - g.at > 180_000 }

  /** The uninterrupted claim steps of a delivery. */
  function Claiming(s: State, w: WorkerId, d: Delivery, now: int): State {
    Step(Step(Step(Step(s, Deliver(w, d)), Insert(w, now)), Find(w, now)), TakeOver(w, now))
  }

  lemma ClaimedOrSkipped(s: State, w: WorkerId, d: Delivery, now: int)
    requires w !in s.workers
    ensures var k, t := KeyOf(d), Claiming(s, w, d, now);
            && t.grants == (
                 if k !in s.db.claims then s.grants + [Grant(k, 0, now)]
                 else if && Visible(s.db.claims, k, d.retryCount) && s.db.claims[k].status.PROCESSING?
                         && now - s.db.claims[k].updatedAt > STALE_THRESHOLD_MS
                 then s.grants + [Grant(k, s.db.claims[k].version + 1, now)]
                 else s.grants)
  {
    var s1 := Step(s, Deliver(w, d));
    assert s1.workers[w] == Worker(d, Inserting);
    var s2 := Step(s1, Insert(w, now));
    assert s2.workers[w].d == d;
  }

  /** A delivery is handed the record, after any run, if and only if the record was never handed out, or
      it is still PROCESSING under the delivery's own count and every earlier holder has had more than
      three minutes: within them a duplicate is never granted, and after them a dead holder's always is. */
  lemma GrantedIff(m: Summaries, acts: seq<Action>, clock: int, w: WorkerId, d: Delivery, now: int)
    requires Timely(clock, acts) && ClockAfter(clock, acts) <= now
    requires w !in Exec(Init(m), acts).workers
    ensures var s := Exec(Init(m), acts);
            var k, t := KeyOf(d), Claiming(s, w, d, now);
            && s.grants <= t.grants && |t.grants| <= |s.grants| + 1
            && (|t.grants| > |s.grants| ==> t.grants[|s.grants|].key == k && t.grants[|s.grants|].at == now)
            && (|t.grants| > |s.grants| <==>
                  || !OnRecord(s.grants, k)
                  || (&& Visible(s.db.claims, k, d.retryCount) && s.db.claims[k].status.PROCESSING?
                      && AllOld(s.grants, k, now)))
  {
    RunKeepsTimes(Init(m), acts, clock);
    var s := Exec(Init(m), acts);
    var k := KeyOf(d);
    ClaimedOrSkipped(s, w, d, now);
    assert k in s.db.claims <==> OnRecord(s.grants, k);
    if k in s.db.claims && s.db.claims[k].status.PROCESSING? {
      assert GrantedAt(s.grants, k, s.db.claims[k].updatedAt);
      assert AllOld(s.grants, k, now) <==> now - s.db.claims[k].updatedAt > STALE_THRESHOLD_MS;
    }
  }
}
