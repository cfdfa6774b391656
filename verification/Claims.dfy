/** The claim protocol of events/idempotency.ts together with the transaction wrapper and the
    consumers that use it: any number of workers, duplicate deliveries, stale takeovers, lost
    commit replies and crashes, interleaved at every database operation. */
module Claims {
  import opened Projections

  type EventId = string
  type Topic = string
  type Group = string
  type WorkerId = nat

  const STALE_THRESHOLD_MS := 180 * 1000
  const MAX_MONGO_TX_RETRIES: nat := 2

  datatype Event = Event(id: EventId, body: Body)

  /** The unique index on processed_events. */
  datatype Key = Key(eventId: EventId, group: Group, topic: Topic)

  datatype Status = PROCESSING | COMPLETED | FAILED

  datatype Claim = Claim(status: Status, version: nat, retryCount: int, updatedAt: int)

  type ClaimMap = map<Key, Claim>

  datatype Delivery = Delivery(event: Event, group: Group, topic: Topic, retryCount: int)

  function KeyOf(d: Delivery): Key { Key(d.event.id, d.group, d.topic) }

  // ---- The four single-document operations ----

  function FreshClaim(retryCount: int, now: int): Claim { Claim(PROCESSING, 0, retryCount, now) }

  /** `findOne` and the updates all filter on retryCount besides the key. */
  predicate Visible(cs: ClaimMap, k: Key, retryCount: int) {
    k in cs && cs[k].retryCount == retryCount
  }

  predicate Claimable(cs: ClaimMap, k: Key, retryCount: int, version: nat) {
    Visible(cs, k, retryCount) && cs[k].status.PROCESSING? && cs[k].version == version
  }

  function TakenOver(c: Claim, now: int): Claim { c.(version := c.version + 1, updatedAt := now) }

  /** The completing update names no topic, so it may pick the claim of another topic. */
  predicate CompletionMatches(cs: ClaimMap, d: Delivery, version: nat, k: Key) {
    k.eventId == d.event.id && k.group == d.group && Claimable(cs, k, d.retryCount, version)
  }

  function Completed(c: Claim): Claim { c.(status := COMPLETED, version := c.version + 1) }

  /** The failing update filters on the version but not on the status. */
  function AfterFail(cs: ClaimMap, k: Key, retryCount: int, version: nat, now: int): ClaimMap {
    if Visible(cs, k, retryCount) && cs[k].version == version then
      cs[k := cs[k].(status := FAILED, version := version + 1, updatedAt := now)]
    else cs
  }

  // ---- System state ----

  datatype Db = Db(claims: ClaimMap, summaries: Summaries)

  /** Where a worker stands inside its message handler. `snap` is what its open transaction reads, taken
      when `since` transactions had committed. */
  datatype Phase =
    | Inserting
    | Finding
    | TakingOver(seen: nat)
    | Granted(version: nat, attempt: nat)
    | InTx(version: nat, attempt: nat, snap: Db, since: nat)
    | Written(version: nat, attempt: nat)
    | Failing(version: nat)

  datatype Worker = Worker(d: Delivery, phase: Phase)

  /** A committed transaction: the `at`-th, the summaries it wrote, and the users it took to have no
      summary although they had got one since its snapshot. */
  datatype Commit = Commit(d: Delivery, version: nat, at: nat, writes: set<UserId>, missed: set<UserId>)

  /** A claim handed to a worker: the record, its version from then on, and when. */
  datatype Grant = Grant(key: Key, version: nat, at: int)

  /** `log` lists the transactions that committed, as the database's own log does; `grants` what
      was handed out on real records, a history that no step reads. */
  datatype State = State(db: Db, workers: map<WorkerId, Worker>, log: seq<Commit>, grants: seq<Grant>)

  function Init(m: Summaries): State { State(Db(map[], m), map[], [], []) }

  datatype Action =
    | Deliver(w: WorkerId, d: Delivery)
    | Insert(w: WorkerId, now: int)
    | Find(w: WorkerId, now: int)
    | TakeOver(w: WorkerId, now: int)
    | Begin(w: WorkerId)
    | CommitTx(w: WorkerId, k: Key)
    | Retry(w: WorkerId)
    | Throw(w: WorkerId)
    | Fail(w: WorkerId, now: int)
    | Finish(w: WorkerId)

  function Move(s: State, w: WorkerId, p: Phase): State
    requires w in s.workers
  {
    s.(workers := s.workers[w := s.workers[w].(phase := p)])
  }

  function Leave(s: State, w: WorkerId): State { s.(workers := s.workers - {w}) }

  /** A transaction whose documents were written since its snapshot is aborted; what it only read
      does not matter. */
  predicate NoConflict(s: State, snap: Db, since: nat, k: Key, b: Body) {
    && k in s.db.claims && k in snap.claims && s.db.claims[k] == snap.claims[k]
    && Untouched(s.log, since, Writes(b, snap.summaries))
  }

  predicate Untouched(log: seq<Commit>, since: nat, us: set<UserId>) {
    forall i :: since <= i < |log| ==> log[i].writes !! us
  }

  /** What a commit on the snapshot installs. */
  function Installed(s: State, snap: Db, d: Delivery, version: nat, k: Key): State
    requires k in snap.claims
  {
    var b := d.event.body;
    var writes := Writes(b, snap.summaries);
    s.(db := Db(s.db.claims[k := Completed(snap.claims[k])],
                Overwrite(s.db.summaries, Apply(snap.summaries, b), writes)),
       log := s.log + [Commit(d, version, |s.log|, writes, Missed(b, snap.summaries, s.db.summaries))])
  }

  /** One atomic step; an action that is not enabled leaves the state unchanged. */
  function Step(s: State, a: Action): State {
    if a.Deliver? then
      if a.w in s.workers then s else s.(workers := s.workers[a.w := Worker(a.d, Inserting)])
    else if a.w !in s.workers then s
    else
      var d, p := s.workers[a.w].d, s.workers[a.w].phase;
      var k := KeyOf(d);
      match a
      case Insert(w, now) =>
        if !p.Inserting? then s
        else if k in s.db.claims then Move(s, w, Finding)
        else Move(s, w, Granted(0, 1)).(
             db := s.db.(claims := s.db.claims[k := FreshClaim(d.retryCount, now)]),
             grants := s.grants + [Grant(k, 0, now)])
      case Find(w, now) =>
        if !p.Finding? then s
        else if !Visible(s.db.claims, k, d.retryCount) then Move(s, w, Granted(0, 1))
        else if s.db.claims[k].status.PROCESSING? && now - s.db.claims[k].updatedAt > STALE_THRESHOLD_MS
        then Move(s, w, TakingOver(s.db.claims[k].version))
        else Leave(s, w)
      case TakeOver(w, now) =>
        if !p.TakingOver? then s
        else if Claimable(s.db.claims, k, d.retryCount, p.seen)
        then Move(s, w, Granted(p.seen + 1, 1)).(
             db := s.db.(claims := s.db.claims[k := TakenOver(s.db.claims[k], now)]),
             grants := s.grants + [Grant(k, p.seen + 1, now)])
        else Leave(s, w)
      case Begin(w) =>
        if !p.Granted? then s else Move(s, w, InTx(p.version, p.attempt, s.db, |s.log|))
      case CommitTx(w, ck) =>
        if && p.InTx? && CompletionMatches(p.snap.claims, d, p.version, ck)
           && NoConflict(s, p.snap, p.since, ck, d.event.body)
        then Installed(Move(s, w, Written(p.version, p.attempt)), p.snap, d, p.version, ck)
        else s
      // A transient error, also one reported after the server had committed.
      case Retry(w) =>
        if (p.InTx? || p.Written?) && p.attempt < MAX_MONGO_TX_RETRIES
        then Move(s, w, Granted(p.version, p.attempt + 1)) else s
      case Throw(w) =>
        if p.Granted? || p.InTx? || p.Written? then Move(s, w, Failing(p.version)) else s
      case Fail(w, now) =>
        if p.Failing?
        then Leave(s, w).(db := s.db.(claims := AfterFail(s.db.claims, k, d.retryCount, p.version, now)))
        else s
      // The handler returns, or the process dies, at any point.
      case Finish(w) => Leave(s, w)
  }

  function Exec(s: State, acts: seq<Action>): State
    decreases |acts|
  {
    if acts == [] then s else Exec(Step(s, acts[0]), acts[1..])
  }

  // ---- The inductive invariant ----

  /** Which topic of the group an (event, retryCount) pair can arrive on. One topic per group
      is the constant case; the retry ladder is the case of one topic per retryCount. */
  type Routing = (EventId, Group, int) -> Topic

  predicate Routed(d: Delivery, route: Routing) {
    d.topic == route(d.event.id, d.group, d.retryCount)
  }

  predicate DeliveriesRouted(acts: seq<Action>, route: Routing) {
    forall a <- acts :: a.Deliver? ==> Routed(a.d, route)
  }

  /** A granted version never exceeds the record's, and lies strictly below it once the record
      is COMPLETED or FAILED. */
  predicate Below(c: Claim, version: nat) {
    version <= c.version && (!c.status.PROCESSING? ==> version < c.version)
  }

  predicate HoldsGrant(p: Phase) { p.Granted? || p.InTx? || p.Written? || p.Failing? }

  predicate WorkerOk(cs: ClaimMap, w: Worker, route: Routing) {
    && Routed(w.d, route)
    && (!w.phase.Inserting? ==> KeyOf(w.d) in cs)
    && (HoldsGrant(w.phase) && Visible(cs, KeyOf(w.d), w.d.retryCount) ==>
          Below(cs[KeyOf(w.d)], w.phase.version))
  }

  ghost predicate Committed(log: seq<Commit>, k: Key) {
    exists c <- log :: KeyOf(c.d) == k
  }

  predicate DistinctKeys(log: seq<Commit>) {
    forall i, j :: 0 <= i < j < |log| ==> KeyOf(log[i].d) != KeyOf(log[j].d)
  }

  predicate DistinctGrants(gs: seq<Grant>) {
    forall i, j :: 0 <= i < j < |gs| && gs[i].key == gs[j].key ==> gs[i].version != gs[j].version
  }

  predicate GrantsBelow(cs: ClaimMap, gs: seq<Grant>) {
    forall g <- gs :: g.key in cs && Below(cs[g.key], g.version)
  }

  predicate ClaimsRouted(cs: ClaimMap, route: Routing) {
    forall k <- cs :: k.topic == route(k.eventId, k.group, cs[k].retryCount)
  }

  ghost predicate CompletedIffCommitted(cs: ClaimMap, log: seq<Commit>) {
    forall k: Key :: (k in cs && cs[k].status.COMPLETED?) <==> Committed(log, k)
  }

  ghost predicate Inv(s: State, route: Routing) {
    && ClaimsRouted(s.db.claims, route)
    && (forall w <- s.workers :: WorkerOk(s.db.claims, s.workers[w], route))
    && CompletedIffCommitted(s.db.claims, s.log)
    && DistinctKeys(s.log)
    && DistinctGrants(s.grants)
    && GrantsBelow(s.db.claims, s.grants)
  }

  /** How claims may change under a worker: they are never removed, keep their retryCount, and
      a version that was below the record stays below. */
  ghost predicate Grows(cs: ClaimMap, cs': ClaimMap) {
    forall k <- cs ::
      && k in cs'
      && cs'[k].retryCount == cs[k].retryCount
      && forall v: nat :: Below(cs[k], v) ==> Below(cs'[k], v)
  }

  lemma GrowthKeepsWorkers(cs: ClaimMap, cs': ClaimMap, ws: map<WorkerId, Worker>, route: Routing)
    requires Grows(cs, cs')
    requires forall w <- ws :: WorkerOk(cs, ws[w], route)
    ensures forall w <- ws :: WorkerOk(cs', ws[w], route)
  {
    forall w | w in ws ensures WorkerOk(cs', ws[w], route) {
      assert WorkerOk(cs, ws[w], route);
      var k := KeyOf(ws[w].d);
      if k in cs {
        assert cs'[k].retryCount == cs[k].retryCount;
      }
    }
  }

  lemma GrowthKeepsGrants(cs: ClaimMap, cs': ClaimMap, gs: seq<Grant>)
    requires Grows(cs, cs') && GrantsBelow(cs, gs)
    ensures GrantsBelow(cs', gs)
  {}

  /** Where routing is a function, the completing update can only find the worker's own claim. */
  lemma CompletionIsOwn(cs: ClaimMap, d: Delivery, version: nat, k: Key, route: Routing)
    requires ClaimsRouted(cs, route) && Routed(d, route)
    requires CompletionMatches(cs, d, version, k)
    ensures k == KeyOf(d)
  {}

  lemma InsertKeepsInv(s: State, w: WorkerId, now: int, route: Routing)
    requires Inv(s, route)
    ensures Inv(Step(s, Insert(w, now)), route)
  {
    var s' := Step(s, Insert(w, now));
    if w in s.workers && s.workers[w].phase.Inserting? {
      var d := s.workers[w].d;
      var k := KeyOf(d);
      assert WorkerOk(s.db.claims, s.workers[w], route);
      if k !in s.db.claims {
        assert Grows(s.db.claims, s'.db.claims);
        GrowthKeepsWorkers(s.db.claims, s'.db.claims, s.workers, route);
        GrowthKeepsGrants(s.db.claims, s'.db.claims, s.grants);
        assert forall g <- s.grants :: g.key != k;
        assert !Committed(s.log, k);
      }
    }
  }

  lemma FindKeepsInv(s: State, w: WorkerId, now: int, route: Routing)
    requires Inv(s, route)
    ensures Inv(Step(s, Find(w, now)), route)
  {}

  lemma TakeOverKeepsInv(s: State, w: WorkerId, now: int, route: Routing)
    requires Inv(s, route)
    ensures Inv(Step(s, TakeOver(w, now)), route)
  {
    var s' := Step(s, TakeOver(w, now));
    if w in s.workers && s.workers[w].phase.TakingOver? {
      var d, p := s.workers[w].d, s.workers[w].phase;
      var k := KeyOf(d);
      if Claimable(s.db.claims, k, d.retryCount, p.seen) {
        assert Grows(s.db.claims, s'.db.claims);
        GrowthKeepsWorkers(s.db.claims, s'.db.claims, s.workers, route);
        GrowthKeepsGrants(s.db.claims, s'.db.claims, s.grants);
        assert forall g <- s.grants :: g.key == k ==> g.version <= p.seen;
        assert WorkerOk(s.db.claims, s.workers[w], route);
        assert WorkerOk(s'.db.claims, s'.workers[w], route);
      }
    }
  }

  lemma CommitKeepsInv(s: State, w: WorkerId, ck: Key, route: Routing)
    requires Inv(s, route)
    ensures Inv(Step(s, CommitTx(w, ck)), route)
  {
    var s' := Step(s, CommitTx(w, ck));
    if s' != s {
      var d, p := s.workers[w].d, s.workers[w].phase;
      var k := KeyOf(d);
      assert WorkerOk(s.db.claims, s.workers[w], route);
      CompletionIsOwn(s.db.claims, d, p.version, ck, route);
      assert !Committed(s.log, k);
      assert Grows(s.db.claims, s'.db.claims);
      GrowthKeepsWorkers(s.db.claims, s'.db.claims, s.workers, route);
      GrowthKeepsGrants(s.db.claims, s'.db.claims, s.grants);
      var c := s'.log[|s.log|];
      assert c.d == d;
      forall key: Key
        ensures (key in s'.db.claims && s'.db.claims[key].status.COMPLETED?) <==> Committed(s'.log, key)
      {
        if Committed(s.log, key) {
          var e :| e in s.log && KeyOf(e.d) == key;
          assert e in s'.log;
        }
        if key == k {
          assert c in s'.log;
        }
      }
    }
  }

  lemma FailKeepsInv(s: State, w: WorkerId, now: int, route: Routing)
    requires Inv(s, route)
    ensures Inv(Step(s, Fail(w, now)), route)
  {
    var s' := Step(s, Fail(w, now));
    if w in s.workers && s.workers[w].phase.Failing? {
      assert WorkerOk(s.db.claims, s.workers[w], route);
      assert Grows(s.db.claims, s'.db.claims);
      GrowthKeepsWorkers(s.db.claims, s'.db.claims, s.workers, route);
      GrowthKeepsGrants(s.db.claims, s'.db.claims, s.grants);
    }
  }

  lemma StepKeepsInv(s: State, a: Action, route: Routing)
    requires Inv(s, route)
    requires a.Deliver? ==> Routed(a.d, route)
    ensures Inv(Step(s, a), route)
  {
    match a
    case Insert(w, now) => InsertKeepsInv(s, w, now, route);
    case Find(w, now) => FindKeepsInv(s, w, now, route);
    case TakeOver(w, now) => TakeOverKeepsInv(s, w, now, route);
    case CommitTx(w, k) => CommitKeepsInv(s, w, k, route);
    case Fail(w, now) => FailKeepsInv(s, w, now, route);
    case _ =>
  }

  lemma {:induction false} RunKeepsInv(s: State, acts: seq<Action>, route: Routing)
    requires Inv(s, route)
    requires DeliveriesRouted(acts, route)
    ensures Inv(Exec(s, acts), route)
    decreases |acts|
  {
    if acts != [] {
      assert acts[0] in acts;
      StepKeepsInv(s, acts[0], route);
      RunKeepsInv(Step(s, acts[0]), acts[1..], route);
    }
  }

  lemma InitInv(m: Summaries, route: Routing)
    ensures Inv(Init(m), route)
  {}

  // ---- Claim safety ----

  /** In every run in which each (event, retryCount) of a group arrives on one topic, at most
      one transaction commits per claim, and the claim is COMPLETED exactly when one did;
      versions handed out on a record are distinct and stay below it. */
  lemma ClaimSafety(m: Summaries, acts: seq<Action>, route: Routing)
    requires DeliveriesRouted(acts, route)
    ensures var s := Exec(Init(m), acts);
            && DistinctKeys(s.log)
            && CompletedIffCommitted(s.db.claims, s.log)
            && DistinctGrants(s.grants)
            && GrantsBelow(s.db.claims, s.grants)
  {
    InitInv(m, route);
    RunKeepsInv(Init(m), acts, route);
  }
}
