/** The e-mail outbox poller (email.poller.ts): one pass claims, dispatches and gives back rows until
    none is claimable. */
module EmailPoller {
  import opened Collections
  import opened Sums

  type RowId = nat

  const MAX_ATTEMPTS: nat := 5
  const STUCK_PROCESSING_THRESHOLD_MS := 2 * 60 * 1000
  const STUCK_ENQUEUED_THRESHOLD_MS := 10 * 60 * 1000

  datatype Status = PENDING | PROCESSING | ENQUEUED | SENT | FAILED | DELIVERED

  datatype Row = Row(createdAt: int, status: Status, attempts: nat,
                     nextRetryAt: Option<int>, claimedAt: Option<int>, enqueuedAt: Option<int>)

  type Rows = map<RowId, Row>

  /** The back-off after a failure of a row that had failed `attempts` times before. */
  function Backoff(attempts: nat): nat {
    if attempts == 0 then 30_000 else if attempts == 1 then 60_000 else if attempts == 2 then 120_000 else 300_000
  }

  /** The filter of the claiming update. */
  predicate Claimable(r: Row, now: int) {
    && r.attempts < MAX_ATTEMPTS
    && (|| (r.status.PENDING? && (r.nextRetryAt.None? || r.nextRetryAt.value <= now))
        || (r.status.PROCESSING? && r.claimedAt.Some? && r.claimedAt.value < now - STUCK_PROCESSING_THRESHOLD_MS)
        || (r.status.ENQUEUED? && r.enqueuedAt.Some? && r.enqueuedAt.value < now - STUCK_ENQUEUED_THRESHOLD_MS))
  }

  /** The schema declares neither nextRetryAt nor enqueuedAt; where the driver is strict, writes of
      them are dropped. */
  function Undeclared(strict: bool, stored: Option<int>, t: int): Option<int> { if strict then stored else Some(t) }

  function Claimed(r: Row, now: int): Row { r.(status := PROCESSING, claimedAt := Some(now)) }

  function Dispatched(r: Row, now: int, strict: bool): Row {
    r.(status := ENQUEUED, enqueuedAt := Undeclared(strict, r.enqueuedAt, now))
  }

  /** The update of the catch block; `attempts` is what the claim had returned. */
  function GivenBack(r: Row, attempts: nat, now: int, strict: bool): Row {
    if attempts + 1 >= MAX_ATTEMPTS then r.(status := FAILED, attempts := r.attempts + 1)
    else r.(status := PENDING, attempts := r.attempts + 1,
            nextRetryAt := Undeclared(strict, r.nextRetryAt, now + Backoff(attempts)))
  }

  /** How the dispatch of one claimed row ends. */
  datatype Outcome = Success | AddFails | MarkFails | GiveBackFails(added: bool)

  predicate RowOk(r: Row, strict: bool) {
    && r.attempts <= MAX_ATTEMPTS
    && (r.status.FAILED? ==> r.attempts == MAX_ATTEMPTS)
    && (strict ==> r.nextRetryAt.None? && r.enqueuedAt.None?)
  }

  predicate RowsOk(rows: Rows, strict: bool) {
    forall id <- rows :: RowOk(rows[id], strict)
  }

  // ---- Why a pass ends ----

  function Weight(r: Row, now: int): int {
    2 * (MAX_ATTEMPTS - r.attempts) + if Claimable(r, now) then 1 else 0
  }

  function Weights(rows: Rows, now: int): map<RowId, int> { map id | id in rows :: Weight(rows[id], now) }

  ghost function Work(rows: Rows, now: int): int { Sum(Weights(rows, now)) }

  lemma WorkIsNatural(rows: Rows, now: int, strict: bool)
    requires RowsOk(rows, strict)
    ensures Work(rows, now) >= 0
  {
    forall id | id in rows ensures Weights(rows, now)[id] >= 0 {
      assert RowOk(rows[id], strict);
    }
    SumNonNegative(Weights(rows, now));
  }

  lemma WorkOfUpdate(rows: Rows, id: RowId, r: Row, now: int)
    requires id in rows
    ensures Work(rows[id := r], now) == Work(rows, now) - Weight(rows[id], now) + Weight(r, now)
  {
    assert Weights(rows[id := r], now) == Weights(rows, now)[id := Weight(r, now)];
    SumUpdate(Weights(rows, now), id, Weight(r, now));
  }

  /** Deliveries by the worker, at any moment of the pass. */
  function AfterDeliveries(rows: Rows, done: set<RowId>): Rows {
    map id | id in rows :: if id in done then rows[id].(status := DELIVERED) else rows[id]
  }

  lemma DeliveriesAddNoWork(rows: Rows, done: set<RowId>, now: int)
    ensures Work(AfterDeliveries(rows, done), now) <= Work(rows, now)
  {
    var a, b := Weights(AfterDeliveries(rows, done), now), Weights(rows, now);
    var gap := map id | id in b :: b[id] - a[id];
    SumAdd(a, gap, b);
    SumNonNegative(gap);
  }

  // ---- One row, over its whole life ----

  /** What can happen to a row: a claim, the dispatch ending well or badly or with the poller's death, and
      the worker's delivery. The poller updates by id, whatever the row has become. */
  datatype Event = Claim(now: int) | Dispatch(now: int) | GiveBack(now: int) | Crash | Deliver

  /** A row together with the claim in progress: the attempts that the claim returned. */
  datatype Life = Life(row: Row, claim: Option<nat>)

  function Next(l: Life, e: Event, strict: bool): Life {
    match e
    case Claim(now) =>
      if l.claim.None? && Claimable(l.row, now) then Life(Claimed(l.row, now), Some(l.row.attempts)) else l
    case Dispatch(now) => if l.claim.Some? then Life(Dispatched(l.row, now, strict), None) else l
    case GiveBack(now) => if l.claim.Some? then Life(GivenBack(l.row, l.claim.value, now, strict), None) else l
    case Crash => l.(claim := None)
    case Deliver => l.(row := l.row.(status := DELIVERED))
  }

  function Lived(l: Life, es: seq<Event>, strict: bool): Life {
    if es == [] then l else Next(Lived(l, es[..|es| - 1], strict), es[|es| - 1], strict)
  }

  /** How often the dispatch of the row failed. */
  function Failures(l: Life, es: seq<Event>, strict: bool): nat {
    if es == [] then 0
    else
      var before := es[..|es| - 1];
      Failures(l, before, strict) + if es[|es| - 1].GiveBack? && Lived(l, before, strict).claim.Some? then 1 else 0
  }

  const NEW_ROW := Row(0, PENDING, 0, None, None, None)

  predicate LifeOk(l: Life) {
    && l.row.attempts <= MAX_ATTEMPTS
    && (l.row.status.FAILED? ==> l.row.attempts == MAX_ATTEMPTS)
    && (l.claim.Some? ==> l.claim.value == l.row.attempts < MAX_ATTEMPTS)
  }

  /** A row's attempts are its failures, at most MAX_ATTEMPTS of them, and FAILED means all. */
  lemma {:induction false} AttemptsAreFailures(createdAt: int, es: seq<Event>, strict: bool)
    ensures var l := Life(NEW_ROW.(createdAt := createdAt), None);
            && LifeOk(Lived(l, es, strict))
            && Lived(l, es, strict).row.attempts == Failures(l, es, strict) <= MAX_ATTEMPTS
    decreases |es|
  {
    if es != [] {
      AttemptsAreFailures(createdAt, es[..|es| - 1], strict);
    }
  }

  /** Nothing that happens to an exhausted row lets it be claimed again. */
  lemma {:induction false} ExhaustedIsNeverClaimed(l: Life, es: seq<Event>, strict: bool, now: int)
    requires LifeOk(l) && l.row.attempts == MAX_ATTEMPTS
    ensures Lived(l, es, strict).claim.None? && !Claimable(Lived(l, es, strict).row, now)
    ensures Lived(l, es, strict).row.attempts == MAX_ATTEMPTS
    decreases |es|
  {
    if es != [] {
      ExhaustedIsNeverClaimed(l, es[..|es| - 1], strict, now);
    }
  }

  /** A row given back before its last attempt is claimable again exactly when its back-off is over,
      or, where the driver is strict, at once. */
  lemma GivenBackWaitsForBackoff(r: Row, now: int, strict: bool, t: int)
    requires r.attempts + 1 < MAX_ATTEMPTS && RowOk(r, strict)
    ensures Claimable(GivenBack(r, r.attempts, now, strict), t) <==> strict || t >= now + Backoff(r.attempts)
  {}

  // ---- No row is forgotten ----

  /** What happened to a row last. */
  datatype Last = Created | ClaimedAt(at: int) | EnqueuedAt(at: int) | GivenBackAt(at: int) | DeliveredLast

  /** The story of a row, read off its events: what happened last, how many dispatches failed, and whether a
      poller is at work on it. */
  datatype Story = Story(last: Last, failures: nat, inHand: bool)

  /** The pauses after the first, the second, the third and any later failure. */
  function Pause(failures: nat): nat
    requires failures > 0
  {
    if failures < 4 then [30_000, 60_000, 120_000][failures - 1] else 300_000
  }

  /** When the row is anybody's: at once when it is new, after its pause when it was given back, two minutes
      after a claim and ten after a dispatch that led nowhere. Where nextRetryAt and enqueuedAt are not
      stored there is no pause, and a dispatched row is never taken up again. */
  predicate Due(s: Story, t: int, strict: bool) {
    s.failures < 5 &&
    match s.last
    case Created => true
    case ClaimedAt(at) => t > at + 120_000
    case EnqueuedAt(at) => !strict && t > at + 600_000
    case GivenBackAt(at) => strict || (s.failures > 0 && t >= at + Pause(s.failures))
    case DeliveredLast => false
  }

  function Told(es: seq<Event>, strict: bool): Story {
    if es == [] then Story(Created, 0, false)
    else
      var s := Told(es[..|es| - 1], strict);
      match es[|es| - 1]
      case Claim(now) => if !s.inHand && Due(s, now, strict) then Story(ClaimedAt(now), s.failures, true) else s
      case Dispatch(now) => if s.inHand then Story(EnqueuedAt(now), s.failures, false) else s
      case GiveBack(now) => if s.inHand then Story(GivenBackAt(now), s.failures + 1, false) else s
      case Crash => s.(inHand := false)
      case Deliver => s.(last := DeliveredLast)
  }

  /** The stored fields say what the story says. */
  predicate Tells(l: Life, s: Story, strict: bool) {
    && l.row.attempts == s.failures <= 5
    && (l.claim.Some? <==> s.inHand) && (l.claim.Some? ==> l.claim.value == s.failures < 5)
    && (strict ==> l.row.nextRetryAt.None? && l.row.enqueuedAt.None?)
    && match s.last
       case Created => l.row.status.PENDING? && l.row.nextRetryAt.None? && !s.inHand
       case ClaimedAt(at) => l.row.status.PROCESSING? && l.row.claimedAt == Some(at)
       case EnqueuedAt(at) => l.row.status.ENQUEUED? && (!strict ==> l.row.enqueuedAt == Some(at))
       case GivenBackAt(at) =>
         if s.failures == 5 then l.row.status.FAILED?
         else
           l.row.status.PENDING? && s.failures > 0 && (!strict ==> l.row.nextRetryAt == Some(at + Pause(s.failures)))
       case DeliveredLast => l.row.status.DELIVERED?
  }

  lemma TellsWhenDue(l: Life, s: Story, strict: bool, t: int)
    requires Tells(l, s, strict)
    ensures Claimable(l.row, t) <==> Due(s, t, strict)
  {}

  lemma StepTells(l: Life, s: Story, e: Event, strict: bool)
    requires Tells(l, s, strict)
    ensures e.Claim? ==>
              Tells(Next(l, e, strict),
                    if !s.inHand && Due(s, e.now, strict) then Story(ClaimedAt(e.now), s.failures, true) else s, strict)
    ensures e.Dispatch? ==>
              Tells(Next(l, e, strict), if s.inHand then Story(EnqueuedAt(e.now), s.failures, false) else s, strict)
    ensures e.GiveBack? ==>
              Tells(Next(l, e, strict),
                    if s.inHand then Story(GivenBackAt(e.now), s.failures + 1, false) else s, strict)
    ensures e.Crash? ==> Tells(Next(l, e, strict), s.(inHand := false), strict)
    ensures e.Deliver? ==> Tells(Next(l, e, strict), s.(last := DeliveredLast), strict)
  {
    if e.Claim? { TellsWhenDue(l, s, strict, e.now); }
  }

  lemma {:induction false} LifeTells(createdAt: int, es: seq<Event>, strict: bool)
    ensures Tells(Lived(Life(NEW_ROW.(createdAt := createdAt), None), es, strict), Told(es, strict), strict)
    decreases |es|
  {
    if es != [] {
      var before := es[..|es| - 1];
      LifeTells(createdAt, before, strict);
      StepTells(Lived(Life(NEW_ROW.(createdAt := createdAt), None), before, strict), Told(before, strict),
                es[|es| - 1], strict);
    }
  }

  /** Over every life of a row, crashes of the poller included, the filter matches it exactly when its story
      says that it is due. */
  lemma ClaimableWhenDue(createdAt: int, es: seq<Event>, strict: bool, t: int)
    ensures Claimable(Lived(Life(NEW_ROW.(createdAt := createdAt), None), es, strict).row, t) <==>
              Due(Told(es, strict), t, strict)
  {
    LifeTells(createdAt, es, strict);
    TellsWhenDue(Lived(Life(NEW_ROW.(createdAt := createdAt), None), es, strict), Told(es, strict), strict, t);
  }

  ghost predicate ClaimableOnceMore(r: Row) { exists t :: Claimable(r, t) }

  /** A row is lost to the poller if and only if it has been delivered, has failed five times, or was
      dispatched where enqueuedAt is not stored; every other row becomes claimable within ten minutes of
      what happened last, and stays so until it is claimed. */
  lemma ForgottenIff(createdAt: int, es: seq<Event>, strict: bool)
    ensures var r, s := Lived(Life(NEW_ROW.(createdAt := createdAt), None), es, strict).row, Told(es, strict);
            && (!ClaimableOnceMore(r) <==>
                  r.status.DELIVERED? || r.attempts == 5 || (strict && r.status.ENQUEUED?))
            && (ClaimableOnceMore(r) ==>
                  || s.last.Created?
                  || (!s.last.DeliveredLast? && forall t :: t > s.last.at + 600_000 ==> Claimable(r, t)))
  {
    LifeTells(createdAt, es, strict);
    var r, s := Lived(Life(NEW_ROW.(createdAt := createdAt), None), es, strict).row, Told(es, strict);
    var late := if s.last.Created? || s.last.DeliveredLast? then 0 else s.last.at + 600_001;
    ClaimableWhenDue(createdAt, es, strict, late);
    forall t ensures Claimable(r, t) <==> Due(s, t, strict) {
      ClaimableWhenDue(createdAt, es, strict, t);
    }
  }

  // ---- The pass ----

  predicate OldestClaimable(rows: Rows, id: RowId, now: int) {
    && id in rows && Claimable(rows[id], now)
    && forall j <- rows :: Claimable(rows[j], now) ==> rows[id].createdAt <= rows[j].createdAt
  }

  lemma {:induction false} OldestExists(rows: Rows, some: RowId, now: int) returns (id: RowId)
    requires some in rows && Claimable(rows[some], now)
    ensures OldestClaimable(rows, id, now)
    decreases rows.Keys
  {
    var rest := rows - {some};
    id := some;
    if j :| j in rest && Claimable(rest[j], now) {
      var k := OldestExists(rest, j, now);
      if rows[k].createdAt <= rows[some].createdAt { id := k; }
    }
    assert forall j <- rows :: j == some || j in rest;
  }

  predicate OldestFirst(rows: Rows, ids: seq<RowId>) {
    && (forall i :: 0 <= i < |ids| ==> ids[i] in rows)
    && forall i, j :: 0 <= i < j < |ids| ==> rows[ids[i]].createdAt <= rows[ids[j]].createdAt
  }

  /** What a pass may have done to a row that it did or did not claim. */
  predicate Passed(before: Row, after: Row, claimed: bool, strict: bool) {
    && after.createdAt == before.createdAt
    && before.attempts <= after.attempts <= MAX_ATTEMPTS
    && (!claimed ==> after == before || after == before.(status := DELIVERED))
    && (claimed ==> before.attempts < MAX_ATTEMPTS)
    && (claimed && !strict ==> after.attempts <= before.attempts + 1)
  }

  predicate AllPassed(before: Rows, after: Rows, claims: seq<RowId>, strict: bool) {
    && before.Keys == after.Keys
    && forall id <- before :: Passed(before[id], after[id], id in claims, strict)
  }

  /** While the driver is not strict no row is claimed twice; in any case the oldest come first. */
  predicate InTurn(rows: Rows, claims: seq<RowId>, now: int, strict: bool) {
    && OldestFirst(rows, claims)
    && (forall id <- claims, j <- rows ::
          id in rows && Claimable(rows[j], now) ==> rows[id].createdAt <= rows[j].createdAt)
    && (!strict ==> Distinct(claims) && forall id <- claims :: id in rows && !Claimable(rows[id], now))
  }

  /** One iteration: the claim, deliveries by the worker meanwhile, and the end of the dispatch. */
  function AfterDispatch(rows: Rows, id: RowId, attempts: nat, now: int, strict: bool, o: Outcome,
                         done: set<RowId>): Rows
    requires id in rows
  {
    var rs := AfterDeliveries(rows, done);
    match o
    case Success => rs[id := Dispatched(rs[id], now, strict)]
    case AddFails | MarkFails => rs[id := GivenBack(rs[id], attempts, now, strict)]
    case GiveBackFails(_) => rs
  }

  function AfterIteration(rows: Rows, id: RowId, now: int, strict: bool, o: Outcome, done: set<RowId>): Rows
    requires id in rows
  {
    AfterDispatch(rows[id := Claimed(rows[id], now)], id, rows[id].attempts, now, strict, o, done)
  }

  /** What an iteration is in the life of the row it claims. */
  function LifeOfClaimed(now: int, o: Outcome, delivered: bool): seq<Event> {
    [Claim(now)] + (if delivered then [Deliver] else []) +
    [match o
     case Success => Dispatch(now)
     case GiveBackFails(_) => Crash
     case _ => GiveBack(now)]
  }

  lemma LivedSnoc(l: Life, es: seq<Event>, e: Event, strict: bool)
    ensures Lived(l, es + [e], strict) == Next(Lived(l, es, strict), e, strict)
  {
    assert (es + [e])[..|es|] == es;
  }

  /** The end of a dispatch, for the claimed row alone. */
  function Ended(r: Row, attempts: nat, now: int, strict: bool, o: Outcome): Row {
    match o
    case Success => Dispatched(r, now, strict)
    case AddFails | MarkFails => GivenBack(r, attempts, now, strict)
    case GiveBackFails(_) => r
  }

  lemma ClaimedRowLives(r: Row, now: int, strict: bool, o: Outcome, delivered: bool)
    requires Claimable(r, now)
    ensures Lived(Life(r, None), LifeOfClaimed(now, o, delivered), strict).row ==
              Ended(if delivered then Claimed(r, now).(status := DELIVERED) else Claimed(r, now), r.attempts, now,
                    strict, o)
  {
    var l, es := Life(r, None), LifeOfClaimed(now, o, delivered);
    var end := es[|es| - 1];
    assert [] + [Claim(now)] == [Claim(now)];
    LivedSnoc(l, [], Claim(now), strict);
    assert Lived(l, [Claim(now)], strict) == Life(Claimed(r, now), Some(r.attempts));
    if delivered {
      assert es == [Claim(now)] + [Deliver] + [end];
      LivedSnoc(l, [Claim(now)], Deliver, strict);
      LivedSnoc(l, [Claim(now)] + [Deliver], end, strict);
    } else {
      assert es == [Claim(now)] + [end];
      LivedSnoc(l, [Claim(now)], end, strict);
    }
  }

  lemma DeliveredRowLives(r: Row, strict: bool)
    ensures Lived(Life(r, None), [Deliver], strict).row == r.(status := DELIVERED)
  {
    LivedSnoc(Life(r, None), [], Deliver, strict);
    assert [] + [Deliver] == [Deliver];
  }

  lemma IterationOnClaimed(rows: Rows, id: RowId, now: int, strict: bool, o: Outcome, done: set<RowId>)
    requires id in rows
    ensures var after, r := AfterIteration(rows, id, now, strict, o, done), Claimed(rows[id], now);
            && after.Keys == rows.Keys
            && after[id] ==
                 Ended(if id in done then r.(status := DELIVERED) else r, rows[id].attempts, now, strict, o)
    ensures var after := AfterIteration(rows, id, now, strict, o, done);
            forall j <- rows :: j != id ==>
              j in after && after[j] == if j in done then rows[j].(status := DELIVERED) else rows[j]
  {}

  /** The passes over all rows are lives of the single ones: the claimed row goes through its claim, perhaps a
      delivery, and the end of its dispatch, and the others are delivered or left. */
  lemma IterationIsLife(rows: Rows, id: RowId, now: int, strict: bool, o: Outcome, done: set<RowId>)
    requires id in rows && Claimable(rows[id], now)
    ensures var after := AfterIteration(rows, id, now, strict, o, done);
            && after.Keys == rows.Keys
            && after[id] == Lived(Life(rows[id], None), LifeOfClaimed(now, o, id in done), strict).row
            && forall j <- rows :: j != id ==>
                 after[j] == Lived(Life(rows[j], None), if j in done then [Deliver] else [], strict).row
  {
    IterationOnClaimed(rows, id, now, strict, o, done);
    ClaimedRowLives(rows[id], now, strict, o, id in done);
    forall j | j in rows && j in done
      ensures Lived(Life(rows[j], None), [Deliver], strict).row == rows[j].(status := DELIVERED)
    {
      DeliveredRowLives(rows[j], strict);
    }
  }

  lemma IterationOnRow(rows: Rows, id: RowId, now: int, strict: bool, o: Outcome, done: set<RowId>)
    requires RowsOk(rows, strict) && id in rows && Claimable(rows[id], now)
    ensures var r := AfterIteration(rows, id, now, strict, o, done)[id];
            && RowOk(r, strict) && r.createdAt == rows[id].createdAt
            && r.attempts == rows[id].attempts + (if o.AddFails? || o.MarkFails? then 1 else 0)
            && Weight(r, now) < Weight(rows[id], now)
            && (!strict || o.Success? || o.GiveBackFails? ==> !Claimable(r, now))
  {
    assert RowOk(rows[id], strict);
  }

  lemma IterationOnOthers(rows: Rows, id: RowId, j: RowId, now: int, strict: bool, o: Outcome, done: set<RowId>)
    requires id in rows && j in rows && j != id
    ensures var after := AfterIteration(rows, id, now, strict, o, done);
            j in after && (after[j] == rows[j] || after[j] == rows[j].(status := DELIVERED))
  {}

  lemma IterationKeepsRowsOk(rows: Rows, id: RowId, now: int, strict: bool, o: Outcome, done: set<RowId>)
    requires RowsOk(rows, strict) && id in rows && Claimable(rows[id], now)
    ensures RowsOk(AfterIteration(rows, id, now, strict, o, done), strict)
    ensures AfterIteration(rows, id, now, strict, o, done).Keys == rows.Keys
  {
    var after := AfterIteration(rows, id, now, strict, o, done);
    forall j | j in after ensures RowOk(after[j], strict) {
      if j == id {
        IterationOnRow(rows, id, now, strict, o, done);
      } else {
        IterationOnOthers(rows, id, j, now, strict, o, done);
        assert RowOk(rows[j], strict);
      }
    }
  }

  lemma IterationDoesWork(rows: Rows, id: RowId, now: int, strict: bool, o: Outcome, done: set<RowId>)
    requires RowsOk(rows, strict) && id in rows && Claimable(rows[id], now)
    ensures Work(AfterIteration(rows, id, now, strict, o, done), now) < Work(rows, now)
  {
    var after := AfterIteration(rows, id, now, strict, o, done);
    var others := AfterDeliveries(rows, done - {id});
    DeliveriesAddNoWork(rows, done - {id}, now);
    IterationOnRow(rows, id, now, strict, o, done);
    WorkOfUpdate(others, id, after[id], now);
    IterationIsOneUpdate(rows, id, now, strict, o, done);
  }

  lemma IterationIsOneUpdate(rows: Rows, id: RowId, now: int, strict: bool, o: Outcome, done: set<RowId>)
    requires id in rows
    ensures var after := AfterIteration(rows, id, now, strict, o, done);
            id in after && after == AfterDeliveries(rows, done - {id})[id := after[id]]
  {}

  lemma IterationPassed(before: Rows, rows: Rows, claims: seq<RowId>, id: RowId, now: int, strict: bool, o: Outcome,
                        done: set<RowId>)
    requires RowsOk(rows, strict) && AllPassed(before, rows, claims, strict)
    requires id in rows && Claimable(rows[id], now) && (!strict ==> id !in claims)
    ensures AllPassed(before, AfterIteration(rows, id, now, strict, o, done), claims + [id], strict)
  {
    var after := AfterIteration(rows, id, now, strict, o, done);
    IterationKeepsRowsOk(rows, id, now, strict, o, done);
    forall j | j in before ensures Passed(before[j], after[j], j in claims + [id], strict) {
      assert Passed(before[j], rows[j], j in claims, strict);
      if j == id {
        IterationOnRow(rows, id, now, strict, o, done);
      } else {
        IterationOnOthers(rows, id, j, now, strict, o, done);
      }
    }
  }

  lemma IterationInTurn(rows: Rows, claims: seq<RowId>, id: RowId, now: int, strict: bool, o: Outcome, done: set<RowId>)
    requires RowsOk(rows, strict) && InTurn(rows, claims, now, strict) && OldestClaimable(rows, id, now)
    ensures InTurn(AfterIteration(rows, id, now, strict, o, done), claims + [id], now, strict)
    ensures !strict ==> id !in claims
  {
    var after := AfterIteration(rows, id, now, strict, o, done);
    IterationKeepsRowsOk(rows, id, now, strict, o, done);
    IterationOnRow(rows, id, now, strict, o, done);
    forall j | j in rows
      ensures j in after && after[j].createdAt == rows[j].createdAt
      ensures Claimable(after[j], now) ==> Claimable(rows[j], now)
    {
      if j != id { IterationOnOthers(rows, id, j, now, strict, o, done); }
    }
  }

  // ---- The poller as the source has it ----

  /** The row is in the queue's hands only after it was added to the queue. */
  predicate Handed(rows: Rows, queue: seq<RowId>) {
    forall id <- rows :: rows[id].status.ENQUEUED? ==> id in queue
  }

  ghost predicate NothingClaimable(rows: Rows, now: int) { forall id <- rows :: !Claimable(rows[id], now) }

  ghost predicate AlwaysFails(outcomes: nat -> Outcome, done: nat -> set<RowId>) {
    forall i :: outcomes(i).AddFails? && done(i) == {}
  }

  /** In a pass of failures only, every claimed row has failed, and the others are as they were. */
  predicate Rejected(before: Rows, rows: Rows, claims: seq<RowId>) {
    forall id <- before :: id in rows &&
      if id in claims then rows[id].status.FAILED? || (rows[id].status.PENDING? && rows[id].attempts < MAX_ATTEMPTS)
      else rows[id] == before[id]
  }

  /** What the loop of a pass keeps. */
  ghost predicate PassInv(before: Rows, rows: Rows, queue: seq<RowId>, claims: seq<RowId>, now: int, strict: bool,
                          rejecting: bool)
  {
    && RowsOk(rows, strict) && Handed(rows, queue)
    && AllPassed(before, rows, claims, strict) && InTurn(rows, claims, now, strict)
    && (rejecting ==> strict && Rejected(before, rows, claims))
  }

  lemma PassBegins(rows: Rows, queue: seq<RowId>, now: int, strict: bool, rejecting: bool)
    requires RowsOk(rows, strict) && Handed(rows, queue) && (rejecting ==> strict)
    ensures PassInv(rows, rows, queue, [], now, strict, rejecting)
  {
    forall id | id in rows ensures Passed(rows[id], rows[id], false, strict) {
      assert RowOk(rows[id], strict);
    }
  }

  lemma IterationHanded(rows: Rows, queue: seq<RowId>, queue': seq<RowId>, id: RowId, now: int, strict: bool,
                        o: Outcome, done: set<RowId>)
    requires Handed(rows, queue) && id in rows && (o.Success? ==> id in queue') && forall j <- queue :: j in queue'
    ensures Handed(AfterIteration(rows, id, now, strict, o, done), queue')
  {
    var after := AfterIteration(rows, id, now, strict, o, done);
    forall j | j in after && after[j].status.ENQUEUED? ensures j in queue' {
      if j != id { IterationOnOthers(rows, id, j, now, strict, o, done); }
    }
  }

  lemma IterationRejected(before: Rows, rows: Rows, claims: seq<RowId>, id: RowId, now: int)
    requires Rejected(before, rows, claims) && id in rows && Claimable(rows[id], now)
    ensures Rejected(before, AfterIteration(rows, id, now, true, AddFails, {}), claims + [id])
  {}

  lemma IterationKeeps(before: Rows, rows: Rows, queue: seq<RowId>, queue': seq<RowId>, claims: seq<RowId>, id: RowId,
                       now: int, strict: bool, rejecting: bool, o: Outcome, done: set<RowId>)
    requires PassInv(before, rows, queue, claims, now, strict, rejecting) && OldestClaimable(rows, id, now)
    requires (o.Success? ==> id in queue') && forall j <- queue :: j in queue'
    requires rejecting ==> o.AddFails? && done == {}
    ensures var after := AfterIteration(rows, id, now, strict, o, done);
            && PassInv(before, after, queue', claims + [id], now, strict, rejecting)
            && 0 <= Work(after, now) < Work(rows, now)
  {
    var after := AfterIteration(rows, id, now, strict, o, done);
    IterationKeepsRowsOk(rows, id, now, strict, o, done);
    IterationDoesWork(rows, id, now, strict, o, done);
    WorkIsNatural(after, now, strict);
    IterationInTurn(rows, claims, id, now, strict, o, done);
    IterationPassed(before, rows, claims, id, now, strict, o, done);
    IterationHanded(rows, queue, queue', id, now, strict, o, done);
    if rejecting { IterationRejected(before, rows, claims, id, now); }
  }

  lemma PassedOldestFirst(before: Rows, rows: Rows, claims: seq<RowId>, strict: bool)
    requires AllPassed(before, rows, claims, strict) && OldestFirst(rows, claims)
    ensures OldestFirst(before, claims)
  {
    forall id | id in before ensures before[id].createdAt == rows[id].createdAt {
      assert Passed(before[id], rows[id], id in claims, strict);
    }
  }

  /** What the invariant says when the pass returns. */
  lemma PassReturns(before: Rows, rows: Rows, queue: seq<RowId>, claims: seq<RowId>, now: int, strict: bool,
                    rejecting: bool)
    requires PassInv(before, rows, queue, claims, now, strict, rejecting)
    ensures OldestFirst(before, claims) && (!strict ==> Distinct(claims))
    ensures rejecting && NothingClaimable(rows, now) ==>
              forall id <- before :: Claimable(before[id], now) ==> id in rows && rows[id].status.FAILED?
  {
    PassedOldestFirst(before, rows, claims, strict);
    if rejecting && NothingClaimable(rows, now) {
      forall id | id in before && Claimable(before[id], now) ensures id in rows && rows[id].status.FAILED? {
        assert RowOk(rows[id], strict);
      }
    }
  }

  class EmailPoller {
    var rows: Rows
    var queue: seq<RowId>

    /** The claiming update: of the claimable rows the oldest. */
    method FindOneAndUpdate(now: int) returns (job: Option<RowId>, attempts: nat)
      modifies `rows
      ensures job.None? <==> NothingClaimable(old(rows), now)
      ensures job.None? ==> rows == old(rows)
      ensures job.Some? ==>
        && OldestClaimable(old(rows), job.value, now)
        && attempts == old(rows)[job.value].attempts
        && rows == old(rows)[job.value := Claimed(old(rows)[job.value], now)]
    {
      job, attempts := None, 0;
      if some :| some in rows && Claimable(rows[some], now) {
        ghost var _ := OldestExists(rows, some, now);
        var id :| id in rows && OldestClaimable(rows, id, now);
        job, attempts := Some(id), rows[id].attempts;
        rows := rows[id := Claimed(rows[id], now)];
      }
    }

    /** The try block and its catch; `done` are the worker's deliveries meanwhile. */
    method Dispatch(id: RowId, attempts: nat, now: int, strict: bool, outcome: Outcome, done: set<RowId>)
      returns (thrown: bool)
      requires id in rows
      modifies this
      ensures rows == AfterDispatch(old(rows), id, attempts, now, strict, outcome, done)
      ensures thrown <==> outcome.GiveBackFails?
      ensures queue == old(queue) +
        (if outcome.AddFails? || (outcome.GiveBackFails? && !outcome.added) then [] else [id])
    {
      if !outcome.AddFails? && (outcome.GiveBackFails? ==> outcome.added) {
        queue := queue + [id];
      }
      rows := AfterDeliveries(rows, done);
      if outcome.Success? {
        rows := rows[id := rows[id].(status := ENQUEUED, enqueuedAt := Undeclared(strict, rows[id].enqueuedAt, now))];
        return false;
      }
      if outcome.GiveBackFails? {
        return true;
      }
      var exhausted := attempts + 1 >= MAX_ATTEMPTS;
      var backoffMs := Backoff(attempts);
      var r := rows[id].(status := if exhausted then FAILED else PENDING, attempts := rows[id].attempts + 1);
      var retryAt := Undeclared(strict, r.nextRetryAt, now + backoffMs);
      rows := rows[id := if exhausted then r else r.(nextRetryAt := retryAt)];
      return false;
    }

    /** One pass, with the clock fixed. It ends for every pattern of failures and deliveries. */
    method PollOnce(now: int, strict: bool, outcomes: nat -> Outcome, deliveries: nat -> set<RowId>)
      returns (thrown: bool, ghost claims: seq<RowId>)
      requires RowsOk(rows, strict) && Handed(rows, queue)
      modifies this
      ensures RowsOk(rows, strict) && Handed(rows, queue)
      ensures !thrown ==> NothingClaimable(rows, now)
      ensures AllPassed(old(rows), rows, claims, strict)
      ensures OldestFirst(old(rows), claims) && (!strict ==> Distinct(claims))
      ensures strict && AlwaysFails(outcomes, deliveries) ==>
                forall id <- old(rows) :: Claimable(old(rows)[id], now) ==> rows[id].status.FAILED?
    {
      ghost var before := rows;
      claims, thrown := [], false;
      var i := 0;
      ghost var rejecting := strict && AlwaysFails(outcomes, deliveries);
      PassBegins(rows, queue, now, strict, rejecting);
      while true
        invariant !thrown && PassInv(before, rows, queue, claims, now, strict, rejecting)
        decreases Work(rows, now)
      {
        ghost var was, queued := rows, queue;
        var job, attempts := FindOneAndUpdate(now);
        if job.None? {
          break;
        }
        thrown := Dispatch(job.value, attempts, now, strict, outcomes(i), deliveries(i));
        IterationKeeps(before, was, queued, queue, claims, job.value, now, strict, rejecting,
                       outcomes(i), deliveries(i));
        claims := claims + [job.value];
        i := i + 1;
        if thrown {
          break;
        }
      }
      PassReturns(before, rows, queue, claims, now, strict, rejecting);
    }
  }
}
