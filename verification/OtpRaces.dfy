/** Verifications, creations, invalidations and expiry of one-time passwords, interleaved at every
    database operation (otp.manager.ts). */
module OtpRaces {
  import opened Collections
  import opened Otp

  type WorkerId = nat

  /** Where a verification stands: before its read, or after it, with what the comparison decided. */
  datatype Phase =
    | Reading(identifier: Identifier, purpose: Purpose)
    | Rejecting(id: RowId, limit: nat)
    | Consuming(id: RowId)

  /** The histories: `limits` of all rows ever created, `failures` counted and successes (`wins`). */
  datatype System = System(rows: Rows, workers: map<WorkerId, Phase>, limits: map<RowId, nat>,
                         failures: multiset<RowId>, wins: multiset<RowId>)

  const INIT := System(map[], map[], map[], multiset{}, multiset{})

  datatype Action =
    | Begin(w: WorkerId, identifier: Identifier, purpose: Purpose)
    | Read(w: WorkerId, found: Option<RowId>, valid: bool, now: int)
    | Count(w: WorkerId)
    | Consume(w: WorkerId, now: int)
    | Leave(w: WorkerId)
    | Clear(identifier: Identifier, purpose: Purpose)
    | Insert(id: RowId, identifier: Identifier, purpose: Purpose, hash: string, c: Config, now: int)
    | Expire(id: RowId)

  /** One atomic step; an action that is not enabled leaves the state unchanged. A creation is a Clear
      and an Insert, an invalidation a Clear. */
  ghost function Step(s: System, a: Action): System {
    match a
    case Begin(w, i, p) => if w in s.workers then s else s.(workers := s.workers[w := Reading(i, p)])
    case Read(w, found, valid, now) =>
      if w !in s.workers || !s.workers[w].Reading? then s
      else if !Finds(s.rows, s.workers[w].identifier, s.workers[w].purpose, found) then s
      else if !Compares(s.rows, found, now) then s.(workers := s.workers - {w})
      else s.(workers := s.workers[w :=
             if valid then Consuming(found.value) else Rejecting(found.value, s.rows[found.value].maxAttempts)])
    case Count(w) =>
      if w !in s.workers || !s.workers[w].Rejecting? then s
      else
        var id, limit := s.workers[w].id, s.workers[w].limit;
        s.(workers := s.workers - {w}, rows := Counted(s.rows, id, limit),
           failures := if CanCount(s.rows, id, limit) then s.failures + multiset{id} else s.failures)
    case Consume(w, now) =>
      if w !in s.workers || !s.workers[w].Consuming? then s
      else
        var id := s.workers[w].id;
        s.(workers := s.workers - {w}, rows := Consumed(s.rows, id, now),
           wins := if CanConsume(s.rows, id) then s.wins + multiset{id} else s.wins)
    case Leave(w) => s.(workers := s.workers - {w})
    case Clear(i, p) => s.(rows := WithoutActive(s.rows, i, p))
    case Insert(id, i, p, hash, c, now) =>
      if id in s.limits then s
      else s.(rows := s.rows[id := NewRow(i, p, hash, c, now)], limits := s.limits[id := c.maxAttempts])
    case Expire(id) => s.(rows := s.rows - {id})
  }

  ghost function Exec(s: System, acts: seq<Action>): System
    decreases |acts|
  {
    if acts == [] then s else Exec(Step(s, acts[0]), acts[1..])
  }

  predicate RowMatches(r: Row, limit: nat, failures: nat, wins: nat) {
    && r.maxAttempts == limit && r.attempts == failures <= limit
    && wins == if r.consumedAt.Some? then 1 else 0
  }

  predicate PhaseOk(p: Phase, limits: map<RowId, nat>) {
    && (p.Rejecting? ==> p.id in limits && p.limit == limits[p.id])
    && (p.Consuming? ==> p.id in limits)
  }

  ghost predicate RowsOk(rows: Rows, limits: map<RowId, nat>, failures: multiset<RowId>, wins: multiset<RowId>) {
    forall id <- rows :: id in limits && RowMatches(rows[id], limits[id], failures[id], wins[id])
  }

  ghost predicate PhasesOk(workers: map<WorkerId, Phase>, limits: map<RowId, nat>) {
    forall w <- workers :: PhaseOk(workers[w], limits)
  }

  ghost predicate Inv(s: System) {
    && RowsOk(s.rows, s.limits, s.failures, s.wins)
    && PhasesOk(s.workers, s.limits)
    && HistoryOk(s.limits, s.failures, s.wins)
  }

  lemma InsertKeepsInv(s: System, a: Action)
    requires Inv(s) && a.Insert?
    ensures Inv(Step(s, a))
  {
    var t := Step(s, a);
    if a.id !in s.limits {
      assert s.failures[a.id] == 0 && s.wins[a.id] == 0;
      forall id | id in t.rows
        ensures id in t.limits && RowMatches(t.rows[id], t.limits[id], t.failures[id], t.wins[id])
      {
        if id != a.id { assert RowMatches(s.rows[id], s.limits[id], s.failures[id], s.wins[id]); }
      }
      forall w | w in t.workers ensures PhaseOk(t.workers[w], t.limits) {
        assert PhaseOk(s.workers[w], s.limits);
      }
    }
  }

  lemma ReadKeepsInv(s: System, a: Action)
    requires Inv(s) && a.Read?
    ensures Inv(Step(s, a))
  {
    var t := Step(s, a);
    if a.w in s.workers && s.workers[a.w].Reading? && a.found.Some? && a.found.value in s.rows {
      var id := a.found.value;
      assert RowMatches(s.rows[id], s.limits[id], s.failures[id], s.wins[id]);
    }
  }

  lemma CountKeepsRows(s: System, id: RowId, limit: nat)
    requires RowsOk(s.rows, s.limits, s.failures, s.wins) && HistoryOk(s.limits, s.failures, s.wins)
    requires CanCount(s.rows, id, limit) && id in s.limits && limit == s.limits[id]
    ensures RowsOk(Counted(s.rows, id, limit), s.limits, s.failures + multiset{id}, s.wins)
    ensures HistoryOk(s.limits, s.failures + multiset{id}, s.wins)
  {
    var rows, failures := Counted(s.rows, id, limit), s.failures + multiset{id};
    assert RowMatches(s.rows[id], s.limits[id], s.failures[id], s.wins[id]);
    forall j | j in rows ensures j in s.limits && RowMatches(rows[j], s.limits[j], failures[j], s.wins[j]) {
      if j != id { assert RowMatches(s.rows[j], s.limits[j], s.failures[j], s.wins[j]); }
    }
  }

  lemma ConsumeKeepsRows(s: System, id: RowId, now: int)
    requires RowsOk(s.rows, s.limits, s.failures, s.wins) && HistoryOk(s.limits, s.failures, s.wins)
    requires CanConsume(s.rows, id)
    ensures RowsOk(Consumed(s.rows, id, now), s.limits, s.failures, s.wins + multiset{id})
    ensures HistoryOk(s.limits, s.failures, s.wins + multiset{id})
  {
    var rows, wins := Consumed(s.rows, id, now), s.wins + multiset{id};
    assert RowMatches(s.rows[id], s.limits[id], s.failures[id], s.wins[id]);
    forall j | j in rows ensures j in s.limits && RowMatches(rows[j], s.limits[j], s.failures[j], wins[j]) {
      if j != id { assert RowMatches(s.rows[j], s.limits[j], s.failures[j], s.wins[j]); }
    }
  }

  lemma VerifierKeepsInv(s: System, a: Action)
    requires Inv(s) && (a.Count? || a.Consume?)
    ensures Inv(Step(s, a))
  {
    if a.w in s.workers {
      var p := s.workers[a.w];
      assert PhaseOk(p, s.limits);
      if a.Count? && p.Rejecting? && CanCount(s.rows, p.id, p.limit) { CountKeepsRows(s, p.id, p.limit); }
      if a.Consume? && p.Consuming? && CanConsume(s.rows, p.id) { ConsumeKeepsRows(s, p.id, a.now); }
    }
  }

  lemma StepKeepsInv(s: System, a: Action)
    requires Inv(s)
    ensures Inv(Step(s, a))
  {
    if a.Insert? { InsertKeepsInv(s, a); }
    else if a.Read? { ReadKeepsInv(s, a); }
    else if a.Count? || a.Consume? { VerifierKeepsInv(s, a); }
  }

  lemma {:induction false} EveryRunInv(s: System, acts: seq<Action>)
    requires Inv(s)
    ensures Inv(Exec(s, acts))
    decreases |acts|
  {
    if acts != [] {
      StepKeepsInv(s, acts[0]);
      EveryRunInv(Step(s, acts[0]), acts[1..]);
    }
  }

  /** In every interleaving no row counts more than maxAttempts failures and none succeeds twice; its
      attempts are the failures counted, and it is consumed exactly when it has succeeded. */
  lemma AttemptsAreBounded(acts: seq<Action>)
    ensures var s := Exec(INIT, acts);
            && (forall id <- s.limits :: s.failures[id] <= s.limits[id] && s.wins[id] <= 1)
            && forall id <- s.rows ::
                 && id in s.limits && s.rows[id].attempts == s.failures[id] <= s.rows[id].maxAttempts
                 && (s.rows[id].consumedAt.Some? <==> s.wins[id] == 1)
  {
    EveryRunInv(INIT, acts);
    var s := Exec(INIT, acts);
    forall id | id in s.rows
      ensures id in s.limits && RowMatches(s.rows[id], s.limits[id], s.failures[id], s.wins[id])
    {
    }
  }

  /** The steps of a verification that nothing interrupts. */
  function VerifySteps(w: WorkerId, i: Identifier, p: Purpose, found: Option<RowId>, valid: bool,
                       now: int): seq<Action> {
    [Begin(w, i, p), Read(w, found, valid, now), if valid then Consume(w, now) else Count(w)]
  }

  /** They do what the sequential operation does. */
  lemma UninterruptedVerify(s: System, w: WorkerId, i: Identifier, p: Purpose, found: Option<RowId>, valid: bool,
                            now: int)
    requires w !in s.workers && Finds(s.rows, i, p, found)
    ensures var t := Exec(s, VerifySteps(w, i, p, found, valid, now));
            && t.rows == AfterVerify(s.rows, found, valid, now) && t.workers == s.workers
            && t.wins == if VerifyAnswer(s.rows, found, valid, now).Success? then s.wins + multiset{found.value}
                         else s.wins
  {
    var last := if valid then Consume(w, now) else Count(w);
    ExecThree(s, Begin(w, i, p), Read(w, found, valid, now), last);
    var s2 := Step(Step(s, Begin(w, i, p)), Read(w, found, valid, now));
    assert s2.rows == s.rows && s2.wins == s.wins;
    if Compares(s.rows, found, now) {
      assert s2.workers[w] == if valid then Consuming(found.value)
                              else Rejecting(found.value, s.rows[found.value].maxAttempts);
    }
    assert Step(s2, last).workers == s.workers;
  }

  lemma ExecThree(s: System, a: Action, b: Action, c: Action)
    ensures Exec(s, [a, b, c]) == Step(Step(Step(s, a), b), c)
  {
    assert [a, b, c][1..] == [b, c] && [b, c][1..] == [c] && [c][1..] == [];
    assert Exec(Step(s, a), [b, c]) == Exec(Step(Step(s, a), b), [c]);
  }

  // ---- When at most one code is usable ----

  ghost predicate Usable(rows: Rows, i: Identifier, p: Purpose) { exists id :: id in rows && Active(rows[id], i, p) }

  /** An insert that takes effect while an unconsumed row of its pair is stored. */
  ghost predicate Doubles(s: System, a: Action) {
    a.Insert? && a.id !in s.limits && Usable(s.rows, a.identifier, a.purpose)
  }

  lemma InsertKeepsActive(rows: Rows, id: RowId, r: Row)
    requires AtMostOneActive(rows) && id !in rows && r.consumedAt.None?
    ensures AtMostOneActive(rows[id := r]) <==> !Usable(rows, r.identifier, r.purpose)
  {
    var t := rows[id := r];
    if j :| j in rows && Active(rows[j], r.identifier, r.purpose) {
      assert Active(t[j], t[id].identifier, t[id].purpose);
    }
  }

  /** No other operation makes a row usable. */
  lemma OtherStepsKeepActive(s: System, a: Action)
    requires AtMostOneActive(s.rows) && !(a.Insert? && a.id !in s.limits)
    ensures AtMostOneActive(Step(s, a).rows)
  {
    var t := Step(s, a);
    assert forall id <- t.rows ::
        id in s.rows && t.rows[id].identifier == s.rows[id].identifier && t.rows[id].purpose == s.rows[id].purpose
        && (t.rows[id].consumedAt.None? ==> s.rows[id].consumedAt.None?);
  }

  ghost predicate OneUsableThroughout(s: System, acts: seq<Action>)
    decreases |acts|
  {
    AtMostOneActive(s.rows) && (acts != [] ==> OneUsableThroughout(Step(s, acts[0]), acts[1..]))
  }

  ghost predicate NeverDoubles(s: System, acts: seq<Action>)
    decreases |acts|
  {
    acts != [] ==> !Doubles(s, acts[0]) && NeverDoubles(Step(s, acts[0]), acts[1..])
  }

  lemma {:induction false} OneUsableFrom(s: System, acts: seq<Action>)
    requires Inv(s) && AtMostOneActive(s.rows)
    ensures OneUsableThroughout(s, acts) <==> NeverDoubles(s, acts)
    decreases |acts|
  {
    if acts != [] {
      var a := acts[0];
      StepKeepsInv(s, a);
      if a.Insert? && a.id !in s.limits {
        InsertKeepsActive(s.rows, a.id, NewRow(a.identifier, a.purpose, a.hash, a.c, a.now));
      } else {
        OtherStepsKeepActive(s, a);
      }
      if AtMostOneActive(Step(s, a).rows) { OneUsableFrom(Step(s, a), acts[1..]); }
    }
  }

  /** In every interleaving: at every moment at most one code per identifier and purpose is usable, if
      and only if no creation inserts its row while an unconsumed row of the pair is stored. */
  lemma OneUsableIff(acts: seq<Action>)
    ensures OneUsableThroughout(INIT, acts) <==> NeverDoubles(INIT, acts)
  {
    OneUsableFrom(INIT, acts);
  }

  /** The schedules in which every insert has a clear of its pair after the pair's last insert; `dirty`
      are the pairs inserted since their last clear. */
  predicate Serial(acts: seq<Action>, dirty: set<(Identifier, Purpose)>)
    decreases |acts|
  {
    acts != [] ==>
      match acts[0]
      case Clear(i, p) => Serial(acts[1..], dirty - {(i, p)})
      case Insert(_, i, p, _, _, _) => (i, p) !in dirty && Serial(acts[1..], dirty + {(i, p)})
      case _ => Serial(acts[1..], dirty)
  }

  ghost predicate DirtyCovers(rows: Rows, dirty: set<(Identifier, Purpose)>) {
    forall id <- rows :: rows[id].consumedAt.None? ==> (rows[id].identifier, rows[id].purpose) in dirty
  }

  function DirtyAfter(a: Action, dirty: set<(Identifier, Purpose)>): set<(Identifier, Purpose)> {
    match a
    case Clear(i, p) => dirty - {(i, p)}
    case Insert(_, i, p, _, _, _) => dirty + {(i, p)}
    case _ => dirty
  }

  lemma StepKeepsDirty(s: System, a: Action, dirty: set<(Identifier, Purpose)>)
    requires DirtyCovers(s.rows, dirty)
    ensures DirtyCovers(Step(s, a).rows, DirtyAfter(a, dirty))
  {}

  /** Creations that do not overlap are safe, whatever verifications and expiry do in between. */
  lemma {:induction false} SerialNeverDoubles(s: System, acts: seq<Action>, dirty: set<(Identifier, Purpose)>)
    requires DirtyCovers(s.rows, dirty) && Serial(acts, dirty)
    ensures NeverDoubles(s, acts)
    decreases |acts|
  {
    if acts != [] {
      StepKeepsDirty(s, acts[0], dirty);
      SerialNeverDoubles(Step(s, acts[0]), acts[1..], DirtyAfter(acts[0], dirty));
    }
  }

  /** Overlapping ones are not: for every pair, two creations can both clear before either inserts. */
  lemma TwoCreationsRace(i: Identifier, p: Purpose, c: Config, now: int)
    ensures !OneUsableThroughout(
              INIT, [Clear(i, p), Clear(i, p), Insert(0, i, p, "x", c, now), Insert(1, i, p, "y", c, now)])
  {
    var acts := [Clear(i, p), Clear(i, p), Insert(0, i, p, "x", c, now), Insert(1, i, p, "y", c, now)];
    assert WithoutActive(map[], i, p) == map[];
    assert Step(INIT, Clear(i, p)) == INIT;
    var s1 := Step(INIT, acts[2]);
    assert s1.rows[0] == NewRow(i, p, "x", c, now);
    assert Doubles(s1, acts[3]);
    assert acts[1..][1..] == [acts[2], acts[3]] && [acts[2], acts[3]][1..] == [acts[3]] && [acts[3]][1..] == [];
    assert !NeverDoubles(s1, [acts[3]]);
    assert !NeverDoubles(INIT, [acts[2], acts[3]]);
    assert !NeverDoubles(INIT, acts[1..]);
    OneUsableIff(acts);
  }
}
