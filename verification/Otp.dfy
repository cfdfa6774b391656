/** One-time passwords (otp.manager.ts): creation, verification and invalidation, run one after the
    other. OtpRaces interleaves their database operations. */
module Otp {
  import opened Collections

  type RowId = nat
  type Identifier = string
  type Purpose = string

  datatype Row = Row(identifier: Identifier, purpose: Purpose, codeHash: string, attempts: nat, maxAttempts: nat,
                     expiresAt: int, consumedAt: Option<int>, createdAt: int)

  type Rows = map<RowId, Row>

  datatype Config = Config(expiryMinutes: int, maxAttempts: nat, throttleSeconds: int, maxPerHour: int)

  const HOUR_MS := 60 * 60 * 1000

  predicate IsFor(r: Row, identifier: Identifier, purpose: Purpose) {
    r.identifier == identifier && r.purpose == purpose
  }

  predicate Active(r: Row, identifier: Identifier, purpose: Purpose) {
    IsFor(r, identifier, purpose) && r.consumedAt.None?
  }

  // ---- The database operations ----

  function WithoutActive(rows: Rows, identifier: Identifier, purpose: Purpose): Rows {
    map id | id in rows && !Active(rows[id], identifier, purpose) :: rows[id]
  }

  function NewRow(identifier: Identifier, purpose: Purpose, hash: string, c: Config, now: int): Row {
    Row(identifier, purpose, hash, 0, c.maxAttempts, now + c.expiryMinutes * 60 * 1000, None, now)
  }

  /** The guarded increment; `limit` is the maxAttempts that the read returned. */
  predicate CanCount(rows: Rows, id: RowId, limit: nat) { id in rows && rows[id].attempts < limit }

  function Counted(rows: Rows, id: RowId, limit: nat): Rows {
    if CanCount(rows, id, limit) then rows[id := rows[id].(attempts := rows[id].attempts + 1)] else rows
  }

  /** The compare-and-set on consumedAt. */
  predicate CanConsume(rows: Rows, id: RowId) { id in rows && rows[id].consumedAt.None? }

  function Consumed(rows: Rows, id: RowId, now: int): Rows {
    if CanConsume(rows, id) then rows[id := rows[id].(consumedAt := Some(now))] else rows
  }

  // ---- The operations ----

  ghost predicate TooSoon(rows: Rows, identifier: Identifier, purpose: Purpose, throttleSeconds: int, now: int) {
    exists id :: id in rows && IsFor(rows[id], identifier, purpose) && now - rows[id].createdAt < 1000 * throttleSeconds
  }

  function Recent(rows: Rows, identifier: Identifier, purpose: Purpose, now: int): set<RowId> {
    set id | id in rows && IsFor(rows[id], identifier, purpose) && rows[id].createdAt >= now - HOUR_MS
  }

  ghost predicate Refused(rows: Rows, identifier: Identifier, purpose: Purpose, c: Config, now: int) {
    || TooSoon(rows, identifier, purpose, c.throttleSeconds, now)
    || |Recent(rows, identifier, purpose, now)| >= c.maxPerHour
  }

  datatype VerifyResult =
    | NotFound | Expired | MaxAttemptsExceeded | InvalidCode(attemptsLeft: int) | AlreadyConsumed | Success

  /** A read of the active row: any of them, or none where there is none. */
  ghost predicate Finds(rows: Rows, identifier: Identifier, purpose: Purpose, found: Option<RowId>) {
    match found
    case Some(id) => id in rows && Active(rows[id], identifier, purpose)
    case None => forall id <- rows :: !Active(rows[id], identifier, purpose)
  }

  /** Whether the code is compared with the row's hash at all. */
  predicate Compares(rows: Rows, found: Option<RowId>, now: int) {
    found.Some? && found.value in rows &&
    var r := rows[found.value];
    now <= r.expiresAt && r.attempts < r.maxAttempts
  }

  function AfterVerify(rows: Rows, found: Option<RowId>, valid: bool, now: int): Rows {
    if !Compares(rows, found, now) then rows
    else if valid then Consumed(rows, found.value, now)
    else Counted(rows, found.value, rows[found.value].maxAttempts)
  }

  function VerifyAnswer(rows: Rows, found: Option<RowId>, valid: bool, now: int): VerifyResult {
    if found.None? || found.value !in rows then NotFound
    else
      var r := rows[found.value];
      if now > r.expiresAt then Expired
      else if r.attempts >= r.maxAttempts then MaxAttemptsExceeded
      else if !valid then
        (if r.attempts + 1 >= r.maxAttempts then MaxAttemptsExceeded else InvalidCode(r.maxAttempts - r.attempts - 1))
      else if r.consumedAt.Some? then AlreadyConsumed
      else Success
  }

  // ---- Sequential runs ----

  /** The histories: `limits` of all rows ever created, `checks` (codes compared with a row) and `wins`
      (successes of a row). */
  datatype State = State(rows: Rows, limits: map<RowId, nat>, checks: multiset<RowId>, wins: multiset<RowId>,
                         clock: int)

  datatype Op =
    | Create(identifier: Identifier, purpose: Purpose, c: Config, bypass: bool, id: RowId, hash: string, now: int)
    | Verify(identifier: Identifier, purpose: Purpose, found: Option<RowId>, valid: bool, now: int)
    | Invalidate(identifier: Identifier, purpose: Purpose, now: int)
    | Ttl(id: RowId, now: int)

  /** Row ids are never reused, and the clock does not go back. */
  ghost predicate Enabled(s: State, o: Op) {
    && o.now >= s.clock
    && match o
       case Create(_, _, _, _, id, _, _) => id !in s.limits
       case Verify(i, p, found, _, _) => Finds(s.rows, i, p, found)
       case Invalidate(_, _, _) => true
       case Ttl(id, now) => id in s.rows && s.rows[id].expiresAt <= now
  }

  ghost predicate Creates(s: State, o: Op) {
    o.Create? && Enabled(s, o) && (o.bypass || !Refused(s.rows, o.identifier, o.purpose, o.c, o.now))
  }

  ghost function Step(s: State, o: Op): State {
    if !Enabled(s, o) then s
    else
      var s := s.(clock := o.now);
      match o
      case Create(i, p, c, bypass, id, hash, now) =>
        if !bypass && Refused(s.rows, i, p, c, now) then s
        else s.(rows := WithoutActive(s.rows, i, p)[id := NewRow(i, p, hash, c, now)],
                limits := s.limits[id := c.maxAttempts])
      case Verify(i, p, found, valid, now) =>
        s.(rows := AfterVerify(s.rows, found, valid, now),
           checks := if Compares(s.rows, found, now) then s.checks + multiset{found.value} else s.checks,
           wins := if VerifyAnswer(s.rows, found, valid, now).Success? then s.wins + multiset{found.value} else s.wins)
      case Invalidate(i, p, _) => s.(rows := WithoutActive(s.rows, i, p))
      case Ttl(id, _) => s.(rows := s.rows - {id})
  }

  ghost function Exec(s: State, ops: seq<Op>): State
    decreases |ops|
  {
    if ops == [] then s else Exec(Step(s, ops[0]), ops[1..])
  }

  const INIT := State(map[], map[], multiset{}, multiset{}, 0)

  // ---- Sequential invariant ----

  predicate SamePairActive(r: Row, q: Row) { q.consumedAt.None? && Active(r, q.identifier, q.purpose) }

  ghost predicate AtMostOneActive(rows: Rows) {
    forall i, j :: i in rows && j in rows && SamePairActive(rows[i], rows[j]) ==> i == j
  }

  /** Every compared code was either counted or successful. */
  predicate RowOk(r: Row, limit: nat, checks: nat, wins: nat) {
    && r.maxAttempts == limit && r.attempts <= limit
    && checks == r.attempts + wins <= limit
    && wins == if r.consumedAt.Some? then 1 else 0
  }

  ghost predicate HistoryOk(limits: map<RowId, nat>, checks: multiset<RowId>, wins: multiset<RowId>) {
    && (forall id <- limits :: checks[id] <= limits[id] && wins[id] <= 1)
    && (forall id <- checks :: id in limits)
    && forall id <- wins :: id in limits
  }

  ghost predicate Inv(s: State) {
    && AtMostOneActive(s.rows)
    && (forall id <- s.rows :: id in s.limits && RowOk(s.rows[id], s.limits[id], s.checks[id], s.wins[id]))
    && HistoryOk(s.limits, s.checks, s.wins)
  }

  lemma CreateKeepsActive(rows: Rows, i: Identifier, p: Purpose, id: RowId, r: Row)
    requires AtMostOneActive(rows) && Active(r, i, p)
    ensures AtMostOneActive(WithoutActive(rows, i, p)[id := r])
  {}

  lemma CreateKeepsInv(s: State, o: Op)
    requires Inv(s) && o.Create?
    ensures Inv(Step(s, o))
  {
    var t := Step(s, o);
    if Creates(s, o) {
      CreateKeepsActive(s.rows, o.identifier, o.purpose, o.id, t.rows[o.id]);
      assert s.checks[o.id] == 0 && s.wins[o.id] == 0;
      forall id | id in t.rows ensures RowOk(t.rows[id], t.limits[id], t.checks[id], t.wins[id]) {
        assert id != o.id ==> RowOk(s.rows[id], s.limits[id], s.checks[id], s.wins[id]);
      }
    }
  }

  lemma VerifyKeepsActive(rows: Rows, found: Option<RowId>, valid: bool, now: int)
    requires AtMostOneActive(rows)
    ensures AtMostOneActive(AfterVerify(rows, found, valid, now))
  {}

  /** The row under verification: the comparison is counted, or it consumes the row. */
  lemma VerifyKeepsRow(rows: Rows, v: RowId, valid: bool, now: int, limit: nat, checks: nat, wins: nat)
    requires Compares(rows, Some(v), now) && rows[v].consumedAt.None? && RowOk(rows[v], limit, checks, wins)
    ensures v in AfterVerify(rows, Some(v), valid, now)
    ensures RowOk(AfterVerify(rows, Some(v), valid, now)[v], limit, checks + 1, if valid then wins + 1 else wins)
    ensures VerifyAnswer(rows, Some(v), valid, now).Success? <==> valid
  {}

  lemma VerifyKeepsRows(s: State, t: State, v: RowId, valid: bool, now: int)
    requires Inv(s) && Compares(s.rows, Some(v), now) && s.rows[v].consumedAt.None?
    requires t.rows == AfterVerify(s.rows, Some(v), valid, now) && t.limits == s.limits
    requires t.checks == s.checks + multiset{v} && t.wins == if valid then s.wins + multiset{v} else s.wins
    ensures forall id <- t.rows :: id in t.limits && RowOk(t.rows[id], t.limits[id], t.checks[id], t.wins[id])
    ensures HistoryOk(t.limits, t.checks, t.wins)
  {
    assert RowOk(s.rows[v], s.limits[v], s.checks[v], s.wins[v]);
    VerifyKeepsRow(s.rows, v, valid, now, s.limits[v], s.checks[v], s.wins[v]);
    forall id | id in t.rows ensures id in t.limits && RowOk(t.rows[id], t.limits[id], t.checks[id], t.wins[id]) {
      if id != v { assert RowOk(s.rows[id], s.limits[id], s.checks[id], s.wins[id]); }
    }
  }

  lemma VerifyKeepsInv(s: State, o: Op)
    requires Inv(s) && o.Verify?
    ensures Inv(Step(s, o))
  {
    if Enabled(s, o) && Compares(s.rows, o.found, o.now) {
      var v := o.found.value;
      VerifyKeepsActive(s.rows, o.found, o.valid, o.now);
      assert RowOk(s.rows[v], s.limits[v], s.checks[v], s.wins[v]);
      VerifyKeepsRow(s.rows, v, o.valid, o.now, s.limits[v], s.checks[v], s.wins[v]);
      VerifyKeepsRows(s, Step(s, o), v, o.valid, o.now);
    }
  }

  lemma DeletionKeepsInv(s: State, o: Op)
    requires Inv(s) && (o.Invalidate? || o.Ttl?)
    ensures Inv(Step(s, o))
  {}

  lemma {:induction false} EveryRunInv(s: State, ops: seq<Op>)
    requires Inv(s)
    ensures Inv(Exec(s, ops))
    decreases |ops|
  {
    if ops != [] {
      match ops[0] {
        case Create(_, _, _, _, _, _, _) => CreateKeepsInv(s, ops[0]);
        case Verify(_, _, _, _, _) => VerifyKeepsInv(s, ops[0]);
        case Invalidate(_, _, _) => DeletionKeepsInv(s, ops[0]);
        case Ttl(_, _) => DeletionKeepsInv(s, ops[0]);
      }
      EveryRunInv(Step(s, ops[0]), ops[1..]);
    }
  }

  /** Run one after the other, the operations leave at most one usable code for an identifier and
      purpose, compare at most maxAttempts codes with any row, and let it succeed at most once. */
  lemma SequentialRunsAreSafe(ops: seq<Op>)
    ensures var s := Exec(INIT, ops);
            && AtMostOneActive(s.rows)
            && (forall id <- s.limits :: s.checks[id] <= s.limits[id] && s.wins[id] <= 1)
            && forall id <- s.rows :: id in s.limits && s.rows[id].attempts <= s.limits[id]
  {
    assert Inv(INIT);
    EveryRunInv(INIT, ops);
    var s := Exec(INIT, ops);
    forall id | id in s.rows ensures id in s.limits && s.rows[id].attempts <= s.limits[id] {
      assert RowOk(s.rows[id], s.limits[id], s.checks[id], s.wins[id]);
    }
  }

  // ---- What a code is good for ----

  /** Nothing replaces, invalidates or removes the code, and nobody gives it right. */
  predicate Leaves(o: Op, i: Identifier, p: Purpose, id: RowId) {
    match o
    case Create(j, q, _, _, _, _, _) => j != i || q != p
    case Invalidate(j, q, _) => j != i || q != p
    case Verify(j, q, _, valid, _) => (j == i && q == p) ==> !valid
    case Ttl(other, _) => other != id
  }

  predicate AllLeave(ops: seq<Op>, i: Identifier, p: Purpose, id: RowId) { forall o <- ops :: Leaves(o, i, p, id) }

  /** How often a wrong code was given for the pair before the deadline. */
  ghost function Wrongs(s: State, ops: seq<Op>, i: Identifier, p: Purpose, deadline: int): nat
    decreases |ops|
  {
    if ops == [] then 0
    else
      var o := ops[0];
      Wrongs(Step(s, o), ops[1..], i, p, deadline)
      + if o.Verify? && o.identifier == i && o.purpose == p && Enabled(s, o) && o.now <= deadline then 1 else 0
  }

  function Least(a: nat, b: nat): nat { if a < b then a else b }

  /** The code's row, with the wrong attempts so far. */
  predicate Holds(s: State, id: RowId, r: Row, wrongs: nat) {
    id in s.rows && s.rows[id] == r.(attempts := Least(wrongs, r.maxAttempts))
  }

  lemma OnlyActive(s: State, id: RowId, i: Identifier, p: Purpose, found: Option<RowId>)
    requires Inv(s) && id in s.rows && Active(s.rows[id], i, p) && Finds(s.rows, i, p, found)
    ensures found == Some(id)
  {
    assert found.Some? ==> SamePairActive(s.rows[found.value], s.rows[id]);
  }

  lemma StepHolds(s: State, o: Op, i: Identifier, p: Purpose, id: RowId, r: Row, wrongs: nat)
    requires Inv(s) && Holds(s, id, r, wrongs) && Active(r, i, p) && Leaves(o, i, p, id)
    ensures var counts := o.Verify? && o.identifier == i && o.purpose == p && Enabled(s, o) && o.now <= r.expiresAt;
            Holds(Step(s, o), id, r, if counts then wrongs + 1 else wrongs)
  {
    if o.Verify? && Enabled(s, o) {
      if o.identifier == i && o.purpose == p {
        OnlyActive(s, id, i, p, o.found);
      } else {
        assert o.found != Some(id);
      }
    }
  }

  lemma StepKeepsInv(s: State, o: Op)
    requires Inv(s)
    ensures Inv(Step(s, o))
  {
    match o
    case Create(_, _, _, _, _, _, _) => CreateKeepsInv(s, o);
    case Verify(_, _, _, _, _) => VerifyKeepsInv(s, o);
    case Invalidate(_, _, _) => DeletionKeepsInv(s, o);
    case Ttl(_, _) => DeletionKeepsInv(s, o);
  }

  lemma {:induction false} RunHolds(s: State, ops: seq<Op>, i: Identifier, p: Purpose, id: RowId, r: Row, wrongs: nat,
                                    deadline: int)
    requires Inv(s) && Holds(s, id, r, wrongs) && Active(r, i, p) && r.expiresAt == deadline
    requires AllLeave(ops, i, p, id)
    ensures Inv(Exec(s, ops)) && Holds(Exec(s, ops), id, r, wrongs + Wrongs(s, ops, i, p, deadline))
    decreases |ops|
  {
    if ops != [] {
      var o := ops[0];
      assert o in ops;
      StepHolds(s, o, i, p, id, r, wrongs);
      StepKeepsInv(s, o);
      var counts := o.Verify? && o.identifier == i && o.purpose == p && Enabled(s, o) && o.now <= deadline;
      RunHolds(Step(s, o), ops[1..], i, p, id, r, if counts then wrongs + 1 else wrongs, deadline);
    }
  }

  lemma CreationHolds(s: State, o: Op)
    requires Inv(s) && Creates(s, o)
    ensures Inv(Step(s, o)) && Holds(Step(s, o), o.id, NewRow(o.identifier, o.purpose, o.hash, o.c, o.now), 0)
  {
    CreateKeepsInv(s, o);
  }

  /** A verification of the pair finds this row and no other. */
  predicate SoleCode(rows: Rows, id: RowId, i: Identifier, p: Purpose) {
    id in rows && Active(rows[id], i, p) && forall j <- rows :: Active(rows[j], i, p) ==> j == id
  }

  /** The pair's code is the row's, under this hash, and it is accepted if and only if it is given right up to
      the deadline and after fewer wrong guesses than the limit. */
  ghost predicate Answers(rows: Rows, i: Identifier, p: Purpose, id: RowId, hash: string, limit: nat, deadline: int,
                          wrongs: nat, now: int)
  {
    && id in rows && rows[id].codeHash == hash && SoleCode(rows, id, i, p)
    && (VerifyAnswer(rows, Some(id), true, now).Success? <==> now <= deadline && wrongs < limit)
  }

  lemma HeldRowAnswers(t: State, i: Identifier, p: Purpose, id: RowId, hash: string, limit: nat, deadline: int,
                       wrongs: nat, now: int, r: Row)
    requires Inv(t) && Holds(t, id, r, wrongs) && Active(r, i, p)
    requires r.codeHash == hash && r.maxAttempts == limit && r.expiresAt == deadline
    ensures Answers(t.rows, i, p, id, hash, limit, deadline, wrongs, now)
  {
    forall j | j in t.rows && Active(t.rows[j], i, p) ensures j == id {
      OnlyActive(t, id, i, p, Some(j));
    }
  }

  lemma HeldCodeWorks(t: State, ops: seq<Op>, i: Identifier, p: Purpose, id: RowId, hash: string, limit: nat,
                      deadline: int, now: int, r: Row)
    requires Inv(t) && Holds(t, id, r, 0) && Active(r, i, p) && AllLeave(ops, i, p, id)
    requires r.codeHash == hash && r.maxAttempts == limit && r.expiresAt == deadline
    ensures Answers(Exec(t, ops).rows, i, p, id, hash, limit, deadline, Wrongs(t, ops, i, p, deadline), now)
  {
    RunHolds(t, ops, i, p, id, r, 0, deadline);
    HeldRowAnswers(Exec(t, ops), i, p, id, hash, limit, deadline, Wrongs(t, ops, i, p, deadline), now, r);
  }

  /** When the minutes of a code are over. */
  function Deadline(c: Config, created: int): int { created + c.expiryMinutes * 60_000 }

  /** A created code, whatever happens to other pairs and however often it is guessed wrong, is the one that
      a verification of its pair finds, and is accepted if and only if it is given right before its minutes
      are over and after fewer wrong guesses than allowed. */
  lemma CreatedCodeWorks(s: State, o: Op, ops: seq<Op>, now: int)
    requires Inv(s) && Creates(s, o)
    requires AllLeave(ops, o.identifier, o.purpose, o.id)
    ensures var t := Step(s, o);
            Answers(Exec(t, ops).rows, o.identifier, o.purpose, o.id, o.hash, o.c.maxAttempts, Deadline(o.c, o.now),
                    Wrongs(t, ops, o.identifier, o.purpose, Deadline(o.c, o.now)), now)
  {
    CreationHolds(s, o);
    HeldCodeWorks(Step(s, o), ops, o.identifier, o.purpose, o.id, o.hash, o.c.maxAttempts, Deadline(o.c, o.now), now,
                  NewRow(o.identifier, o.purpose, o.hash, o.c, o.now));
  }

  // ---- The hourly ceiling ----

  ghost predicate HasRecentActive(rows: Rows, i: Identifier, p: Purpose, now: int) {
    exists id <- rows :: Active(rows[id], i, p) && rows[id].createdAt >= now - 3_600_000
  }

  function UsedRecently(rows: Rows, i: Identifier, p: Purpose, now: int): set<RowId> {
    set id | id in rows && IsFor(rows[id], i, p) && rows[id].consumedAt.Some? && rows[id].createdAt >= now - 3_600_000
  }

  /** In every reachable state the ceiling counts the codes of the last hour that were used, and the one that
      is still open: not the codes created, because each creation deletes the open one before it. */
  lemma CeilingCountsUsedCodes(s: State, i: Identifier, p: Purpose, now: int)
    requires Inv(s)
    ensures |Recent(s.rows, i, p, now)| ==
              |UsedRecently(s.rows, i, p, now)| + if HasRecentActive(s.rows, i, p, now) then 1 else 0
  {
    RecentIsUsedOrOpen(s.rows, i, p, now);
  }

  lemma RecentIsUsedOrOpen(rows: Rows, i: Identifier, p: Purpose, now: int)
    requires AtMostOneActive(rows)
    ensures |Recent(rows, i, p, now)| ==
              |UsedRecently(rows, i, p, now)| + if HasRecentActive(rows, i, p, now) then 1 else 0
  {
    if HasRecentActive(rows, i, p, now) {
      var open :| open in rows && Active(rows[open], i, p) && rows[open].createdAt >= now - 3_600_000;
      UsedAndOneOpen(rows, i, p, now, open);
    } else {
      assert Recent(rows, i, p, now) == UsedRecently(rows, i, p, now);
    }
  }

  lemma UsedAndOneOpen(rows: Rows, i: Identifier, p: Purpose, now: int, open: RowId)
    requires AtMostOneActive(rows)
    requires open in rows && Active(rows[open], i, p) && rows[open].createdAt >= now - 3_600_000
    ensures open !in UsedRecently(rows, i, p, now)
    ensures Recent(rows, i, p, now) == UsedRecently(rows, i, p, now) + {open}
  {
    forall id | id in Recent(rows, i, p, now) && id !in UsedRecently(rows, i, p, now) ensures id == open {
      assert SamePairActive(rows[id], rows[open]);
    }
  }

  // ---- The cool-down between creations ----

  /** A row created at or after t0 that outlives its creation by T, or T is over. */
  ghost predicate Guarded(s: State, i: Identifier, p: Purpose, t0: int, T: int) {
    || s.clock >= t0 + T
    || exists id :: id in s.rows && GuardedBy(s.rows[id], i, p, t0, T)
  }

  predicate GuardedBy(r: Row, i: Identifier, p: Purpose, t0: int, T: int) {
    IsFor(r, i, p) && r.createdAt >= t0 && r.expiresAt >= r.createdAt + T
  }

  /** Between two creations: nothing invalidates, and every code outlives T. */
  predicate Outlasting(o: Op, i: Identifier, p: Purpose, T: int) {
    && (o.Invalidate? ==> o.identifier != i || o.purpose != p)
    && (o.Create? && o.identifier == i && o.purpose == p ==> o.c.expiryMinutes * 60 * 1000 >= T)
  }

  lemma StepKeepsGuarded(s: State, o: Op, i: Identifier, p: Purpose, t0: int, T: int)
    requires Guarded(s, i, p, t0, T) && Outlasting(o, i, p, T) && s.clock >= t0
    requires forall id <- s.rows :: id in s.limits
    ensures Guarded(Step(s, o), i, p, t0, T) && Step(s, o).clock >= t0
  {
    var t := Step(s, o);
    if s.clock < t0 + T {
      var w :| w in s.rows && GuardedBy(s.rows[w], i, p, t0, T);
      if Creates(s, o) && IsFor(t.rows[o.id], i, p) {
        assert GuardedBy(t.rows[o.id], i, p, t0, T);
      } else if w in t.rows {
        assert GuardedBy(t.rows[w], i, p, t0, T);
      }
    }
  }

  lemma {:induction false} RunKeepsGuarded(s: State, ops: seq<Op>, i: Identifier, p: Purpose, t0: int, T: int)
    requires Inv(s) && Guarded(s, i, p, t0, T) && s.clock >= t0
    requires forall o <- ops :: Outlasting(o, i, p, T)
    ensures Guarded(Exec(s, ops), i, p, t0, T)
    decreases |ops|
  {
    if ops != [] {
      EveryRunInv(s, [ops[0]]);
      assert Exec(s, [ops[0]]) == Step(s, ops[0]);
      StepKeepsGuarded(s, ops[0], i, p, t0, T);
      RunKeepsGuarded(Step(s, ops[0]), ops[1..], i, p, t0, T);
    }
  }

  lemma GuardedIsTooSoon(s: State, i: Identifier, p: Purpose, t0: int, throttleSeconds: int, now: int)
    requires Guarded(s, i, p, t0, 1000 * throttleSeconds) && s.clock <= now
    ensures now >= t0 + 1000 * throttleSeconds || TooSoon(s.rows, i, p, throttleSeconds, now)
  {
    if s.clock < t0 + 1000 * throttleSeconds {
      var w :| w in s.rows && GuardedBy(s.rows[w], i, p, t0, 1000 * throttleSeconds);
    }
  }

  /** Two creations for an identifier and purpose, the second one throttled, are at least the
      throttle apart, if the codes created from the first on outlast it and nothing invalidates
      them. */
  lemma ThrottledCreatesAreApart(s: State, first: Op, ops: seq<Op>, second: Op)
    requires Inv(s) && Creates(s, first) && second.Create?
    requires first.identifier == second.identifier && first.purpose == second.purpose
    requires var T := 1000 * second.c.throttleSeconds;
             && Outlasting(first, first.identifier, first.purpose, T)
             && forall o <- ops :: Outlasting(o, first.identifier, first.purpose, T)
    requires !second.bypass && Creates(Exec(Step(s, first), ops), second)
    ensures second.now - first.now >= 1000 * second.c.throttleSeconds
  {
    var T := 1000 * second.c.throttleSeconds;
    var i, p := first.identifier, first.purpose;
    var t := Step(s, first);
    CreateKeepsInv(s, first);
    assert GuardedBy(t.rows[first.id], i, p, first.now, T);
    RunKeepsGuarded(t, ops, i, p, first.now, T);
    GuardedIsTooSoon(Exec(t, ops), i, p, first.now, second.c.throttleSeconds, second.now);
  }

  /** Two creations for an identifier and purpose under one configuration, the second throttled, with
      anything between them, except that without `mayInvalidate` nothing invalidates this pair's codes. */
  ghost predicate Legal(s: State, first: Op, ops: seq<Op>, second: Op, c: Config, i: Identifier, p: Purpose,
                        mayInvalidate: bool)
  {
    && Inv(s) && Creates(s, first) && IsCreation(first, c, i, p)
    && IsCreation(second, c, i, p) && !second.bypass && Creates(Exec(Step(s, first), ops), second)
    && forall o <- ops ::
         && (o.Create? && o.identifier == i && o.purpose == p ==> o.c == c)
         && (o.Invalidate? && o.identifier == i && o.purpose == p ==> mayInvalidate)
  }

  predicate IsCreation(o: Op, c: Config, i: Identifier, p: Purpose) {
    o.Create? && o.c == c && o.identifier == i && o.purpose == p
  }

  /** The throttle is kept in every run. */
  ghost predicate KeepsThrottle(c: Config, i: Identifier, p: Purpose, mayInvalidate: bool) {
    forall s, first, ops, second ::
      Legal(s, first, ops, second, c, i, p, mayInvalidate) ==> second.now - first.now >= 1000 * c.throttleSeconds
  }

  /** The counterexamples need the ceiling to admit one creation at all. */
  predicate AdmitsNone(c: Config) { c.maxPerHour <= 0 }

  /** For every identifier and purpose: a configuration keeps its throttle in every run exactly when it
      has none to keep, admits no throttled creation at all, or its codes outlast the throttle and
      nothing invalidates them. */
  lemma KeepsThrottleIff(c: Config, i: Identifier, p: Purpose, mayInvalidate: bool)
    ensures KeepsThrottle(c, i, p, mayInvalidate) <==>
              || AdmitsNone(c) || c.throttleSeconds <= 0
              || (!mayInvalidate && c.expiryMinutes * 60 >= c.throttleSeconds)
  {
    if AdmitsNone(c) || c.throttleSeconds <= 0 || (!mayInvalidate && c.expiryMinutes * 60 >= c.throttleSeconds) {
      forall s, first, ops, second | Legal(s, first, ops, second, c, i, p, mayInvalidate)
        ensures second.now - first.now >= 1000 * c.throttleSeconds
      {
        if c.throttleSeconds <= 0 || AdmitsNone(c) {
          ClockGoesOn(Step(s, first), ops);
        } else {
          ThrottledCreatesAreApart(s, first, ops, second);
        }
      }
    } else if mayInvalidate {
      InvalidatedCodesAreForgotten(c, i, p);
    } else {
      ExpiredCodesAreForgotten(c, i, p, mayInvalidate);
    }
  }

  lemma {:induction false} ClockGoesOn(s: State, ops: seq<Op>)
    ensures Exec(s, ops).clock >= s.clock
    decreases |ops|
  {
    if ops != [] { ClockGoesOn(Step(s, ops[0]), ops[1..]); }
  }

  function CreateAt(i: Identifier, p: Purpose, c: Config, bypass: bool, id: RowId, now: int): Op {
    Create(i, p, c, bypass, id, "h", now)
  }

  /** An empty collection refuses nobody whom the ceiling admits. */
  lemma EmptyAdmits(c: Config, i: Identifier, p: Purpose, now: int)
    requires !AdmitsNone(c)
    ensures !Refused(map[], i, p, c, now)
  {
    assert Recent(map[], i, p, now) == {};
  }

  lemma FirstCreation(c: Config, i: Identifier, p: Purpose)
    ensures Creates(INIT, CreateAt(i, p, c, true, 0, 0))
    ensures Step(INIT, CreateAt(i, p, c, true, 0, 0)).rows == map[0 := NewRow(i, p, "h", c, 0)]
    ensures Step(INIT, CreateAt(i, p, c, true, 0, 0)).limits == map[0 := c.maxAttempts]
    ensures Step(INIT, CreateAt(i, p, c, true, 0, 0)).clock == 0
  {
    assert WithoutActive(map[], i, p) == map[];
  }

  /** The code is gone, and with it the memory of its creation, before the cool-down is over. */
  lemma ExpiredCodesAreForgotten(c: Config, i: Identifier, p: Purpose, mayInvalidate: bool)
    requires !AdmitsNone(c) && c.throttleSeconds > 0 && c.expiryMinutes * 60 < c.throttleSeconds
    ensures !KeepsThrottle(c, i, p, mayInvalidate)
  {
    var expiry := c.expiryMinutes * 60 * 1000;
    var gone := if expiry > 0 then expiry else 0;
    var first, second := CreateAt(i, p, c, true, 0, 0), CreateAt(i, p, c, false, 1, gone);
    FirstCreation(c, i, p);
    var s1 := Step(INIT, first);
    var s2 := Step(s1, Ttl(0, gone));
    assert s2.rows == map[] && s2.clock == gone;
    assert Exec(s1, [Ttl(0, gone)]) == s2;
    EmptyAdmits(c, i, p, gone);
    assert Legal(INIT, first, [Ttl(0, gone)], second, c, i, p, mayInvalidate);
  }

  lemma InvalidatedCodesAreForgotten(c: Config, i: Identifier, p: Purpose)
    requires !AdmitsNone(c) && c.throttleSeconds > 0
    ensures !KeepsThrottle(c, i, p, true)
  {
    var first, second := CreateAt(i, p, c, true, 0, 0), CreateAt(i, p, c, false, 1, 0);
    FirstCreation(c, i, p);
    var s1 := Step(INIT, first);
    var s2 := Step(s1, Invalidate(i, p, 0));
    assert s2.rows == map[] && s2.clock == 0;
    assert Exec(s1, [Invalidate(i, p, 0)]) == s2;
    EmptyAdmits(c, i, p, 0);
    assert Legal(INIT, first, [Invalidate(i, p, 0)], second, c, i, p, true);
  }

  /** What an invalidation leaves of the throttle, in every state and for every pair: a creation is
      refused afterwards exactly for codes that were consumed, too lately or too many of them. */
  lemma InvalidationResetsThrottle(rows: Rows, i: Identifier, p: Purpose, c: Config, now: int)
    ensures var used := map id | id in rows && rows[id].consumedAt.Some? :: rows[id];
            Refused(WithoutActive(rows, i, p), i, p, c, now) <==> Refused(used, i, p, c, now)
  {
    var used := map id | id in rows && rows[id].consumedAt.Some? :: rows[id];
    var after := WithoutActive(rows, i, p);
    assert forall id :: id in rows && IsFor(rows[id], i, p) ==> (id in after <==> id in used);
    assert Recent(after, i, p, now) == Recent(used, i, p, now);
    if id :| id in after && IsFor(after[id], i, p) && now - after[id].createdAt < 1000 * c.throttleSeconds {
      assert used[id] == after[id];
    }
    if id :| id in used && IsFor(used[id], i, p) && now - used[id].createdAt < 1000 * c.throttleSeconds {
      assert after[id] == used[id];
    }
  }

  const EMAIL_VERIFICATION := Config(10, 5, 60, 5)
  const PASSWORD_RESET := Config(15, 5, 60, 5)
  const TWO_FACTOR := Config(5, 3, 30, 10)
  const PHONE_VERIFICATION := Config(10, 5, 60, 5)
  const TRANSACTION_CONFIRM := Config(5, 3, 30, 20)
  const PIN_RESET := Config(10, 5, 60, 3)
  const PIN_CHANGE := Config(10, 5, 60, 3)

  predicate Shipped(c: Config) {
    c in {EMAIL_VERIFICATION, PASSWORD_RESET, TWO_FACTOR, PHONE_VERIFICATION, TRANSACTION_CONFIRM, PIN_RESET,
          PIN_CHANGE}
  }

  /** Without invalidations every shipped configuration keeps its throttle, with them none does. */
  lemma ShippedConfigsKeepThrottle(c: Config, i: Identifier, p: Purpose, mayInvalidate: bool)
    requires Shipped(c)
    ensures KeepsThrottle(c, i, p, mayInvalidate) <==> !mayInvalidate
  {
    KeepsThrottleIff(c, i, p, mayInvalidate);
  }

  // ---- The manager as the source has it ----

  datatype CreateResult = Created(id: RowId, expiresAt: int) | Throttled(waitSeconds: int) | TooMany

  class OTPManager {
    var rows: Rows
    ghost var used: set<RowId>
    const normalize: Identifier -> Identifier
    /** verifyOtp: does a code match a hash? */
    const matches: (string, string) -> bool
    const hashOtp: string -> string

    constructor (normalize: Identifier -> Identifier, matches: (string, string) -> bool, hashOtp: string -> string)
      ensures Valid() && rows == map[]
    {
      this.normalize, this.matches, this.hashOtp := normalize, matches, hashOtp;
      rows, used := map[], {};
    }

    ghost predicate Valid() reads this { AtMostOneActive(rows) && rows.Keys <= used }

    method EnforceRateLimit(identifier: Identifier, purpose: Purpose, c: Config, now: int)
      returns (r: Option<CreateResult>)
      ensures r.Some? <==> Refused(rows, identifier, purpose, c, now)
      ensures r.Some? ==>
                if TooSoon(rows, identifier, purpose, c.throttleSeconds, now) then r.value.Throttled?
                else r.value.TooMany?
      ensures r.Some? && r.value.Throttled? ==>
                && TooSoon(rows, identifier, purpose, c.throttleSeconds, now + 1000 * (r.value.waitSeconds - 1))
                && !TooSoon(rows, identifier, purpose, c.throttleSeconds, now + 1000 * r.value.waitSeconds)
    {
      if some :| some in rows && IsFor(rows[some], identifier, purpose) {
        ghost var _ := LatestExists(rows, identifier, purpose, some);
        var mostRecent :| mostRecent in rows && Latest(rows, identifier, purpose, mostRecent);
        assert Latest(rows, identifier, purpose, mostRecent);
        var elapsedMs := now - rows[mostRecent].createdAt;
        if elapsedMs < 1000 * c.throttleSeconds {
          return Some(Throttled((1000 * c.throttleSeconds - elapsedMs + 999) / 1000));
        }
      }
      var recentCount := |Recent(rows, identifier, purpose, now)|;
      if recentCount >= c.maxPerHour {
        return Some(TooMany);
      }
      return None;
    }

    method Create(identifier: Identifier, purpose: Purpose, c: Config, bypass: bool, code: string, id: RowId, now: int)
      returns (r: CreateResult)
      requires Valid() && id !in used
      modifies this
      ensures Valid()
      ensures var i := normalize(identifier);
              if !bypass && Refused(old(rows), i, purpose, c, now)
              then (r.Throttled? || r.TooMany?) && rows == old(rows)
              else r == Created(id, now + c.expiryMinutes * 60 * 1000) &&
                   rows == WithoutActive(old(rows), i, purpose)[id := NewRow(i, purpose, hashOtp(code), c, now)]
    {
      var normalized := normalize(identifier);
      if !bypass {
        var refusal := EnforceRateLimit(normalized, purpose, c, now);
        if refusal.Some? {
          return refusal.value;
        }
      }
      var codeHash := hashOtp(code);
      var expiresAt := now + c.expiryMinutes * 60 * 1000;
      rows := WithoutActive(rows, normalized, purpose);
      rows := rows[id := Row(normalized, purpose, codeHash, 0, c.maxAttempts, expiresAt, None, now)];
      used := used + {id};
      return Created(id, expiresAt);
    }

    method Verify(identifier: Identifier, code: string, purpose: Purpose, now: int)
      returns (r: VerifyResult, ghost found: Option<RowId>)
      requires Valid()
      modifies `rows
      ensures Valid() && Finds(old(rows), normalize(identifier), purpose, found)
      ensures var valid := found.Some? && matches(code, old(rows)[found.value].codeHash);
              rows == AfterVerify(old(rows), found, valid, now) && r == VerifyAnswer(old(rows), found, valid, now)
      ensures r.InvalidCode? ==>
                && found.Some? && found.value in rows && r.attemptsLeft > 0
                && rows[found.value].attempts + r.attemptsLeft == rows[found.value].maxAttempts
      ensures r.MaxAttemptsExceeded? ==>
                found.Some? && found.value in rows && rows[found.value].attempts >= rows[found.value].maxAttempts
    {
      var normalized := normalize(identifier);
      found := None;
      if id :| id in rows && Active(rows[id], normalized, purpose) {
        found := Some(id);
        var otp := rows[id];
        if now > otp.expiresAt { return Expired, found; }
        if otp.attempts >= otp.maxAttempts { return MaxAttemptsExceeded, found; }
        if !matches(code, otp.codeHash) {
          var updated := CanCount(rows, id, otp.maxAttempts);
          rows := Counted(rows, id, otp.maxAttempts);
          var attemptsLeft := if updated then rows[id].maxAttempts - rows[id].attempts else 0;
          if attemptsLeft <= 0 { return MaxAttemptsExceeded, found; }
          return InvalidCode(attemptsLeft), found;
        }
        var consumed := CanConsume(rows, id);
        rows := Consumed(rows, id, now);
        if !consumed { return AlreadyConsumed, found; }
        return Success, found;
      }
      return NotFound, found;
    }

    /** No code of the identifier and purpose can be verified any more; consumed codes stay, and so does
        everybody else's. */
    method Invalidate(identifier: Identifier, purpose: Purpose)
      requires Valid()
      modifies `rows
      ensures Valid() && Finds(rows, normalize(identifier), purpose, None)
      ensures forall id :: id in rows <==> id in old(rows) && !Active(old(rows)[id], normalize(identifier), purpose)
      ensures forall id <- rows :: rows[id] == old(rows)[id]
    {
      rows := WithoutActive(rows, normalize(identifier), purpose);
    }
  }

  predicate Latest(rows: Rows, identifier: Identifier, purpose: Purpose, id: RowId) {
    && id in rows && IsFor(rows[id], identifier, purpose)
    && forall j <- rows :: IsFor(rows[j], identifier, purpose) ==> rows[j].createdAt <= rows[id].createdAt
  }

  lemma {:induction false} LatestExists(rows: Rows, identifier: Identifier, purpose: Purpose, some: RowId)
    returns (id: RowId)
    requires some in rows && IsFor(rows[some], identifier, purpose)
    ensures Latest(rows, identifier, purpose, id)
    decreases rows.Keys
  {
    var rest := rows - {some};
    id := some;
    if j :| j in rest && IsFor(rest[j], identifier, purpose) {
      var k := LatestExists(rest, identifier, purpose, j);
      if rows[k].createdAt >= rows[some].createdAt { id := k; }
    }
    assert forall j <- rows :: j == some || j in rest;
  }
}
