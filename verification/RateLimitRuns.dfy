/** Runs of the rate limiter: the fallback against the Redis script (memory-rate-limit.store.ts,
    redis.cli.ts), and how many hits a limit can let through. */
module RateLimitRuns {
  import opened Collections
  import opened RateLimit

  // ---- Runs of hits and sweeps ----

  datatype Op = Hit(key: Key, windowMs: int, now: int) | Sweep(now: int)

  function After(s: Store, o: Op): Store {
    match o
    case Hit(k, w, now) => AfterHit(s, k, w, now)
    case Sweep(now) => Swept(s, now)
  }

  function Last(ops: seq<Op>): Op
    requires ops != []
  {
    ops[|ops| - 1]
  }

  function Front(ops: seq<Op>): seq<Op>
    requires ops != []
  {
    ops[..|ops| - 1]
  }

  function Run(ops: seq<Op>): Store {
    if ops == [] then EMPTY else After(Run(Front(ops)), Last(ops))
  }

  /** The entry a hit leaves behind for its key. */
  function HitEntry(s: Store, k: Key, windowMs: int, now: int): Entry {
    if Open(s, k, now) then Entry(s.hits[k].count + 1, s.hits[k].resetAt) else Entry(1, now + windowMs)
  }

  function Answer(s: Store, k: Key, windowMs: int, now: int): Output {
    var e := HitEntry(s, k, windowMs, now);
    Output(e.count, Remaining(e, now))
  }

  predicate EndsBy(ops: seq<Op>, now: int) { ops == [] || Last(ops).now <= now }

  /** The clock never goes back. */
  predicate Monotone(ops: seq<Op>) {
    ops == [] || (Monotone(Front(ops)) && EndsBy(Front(ops), Last(ops).now))
  }

  predicate HitsKey(o: Op, k: Key) { o.Hit? && o.key == k }

  /** The step drops the key although its window is open: the map is full of open windows and the
      key is among the oldest tenth. */
  predicate Evicts(s: Store, o: Op, k: Key) {
    && o.Hit? && !Open(s, o.key, o.now) && |s.order| >= MAX_KEYS
    && var w := Swept(s, o.now);
       |w.order| >= MAX_KEYS && k in w.order[..DROP]
  }

  predicate NeverEvicted(ops: seq<Op>, k: Key) {
    ops == [] || (NeverEvicted(Front(ops), k) && !Evicts(Run(Front(ops)), Last(ops), k))
  }

  lemma {:induction false} RunStaysBounded(ops: seq<Op>)
    ensures Valid(Run(ops)) && |Run(ops).order| == |Run(ops).hits| <= MAX_KEYS
    decreases |ops|
  {
    if ops != [] {
      RunStaysBounded(Front(ops));
      match Last(ops)
      case Hit(k, w, now) => HitKeepsValid(Run(Front(ops)), k, w, now);
      case Sweep(now) => SweptKeepsValid(Run(Front(ops)), now);
    }
    OrderCountsKeys(Run(ops));
  }

  lemma {:induction false} DistinctCount(ks: seq<Key>)
    requires Distinct(ks)
    ensures |set k | k in ks| == |ks|
    decreases |ks|
  {
    if ks == [] {
      assert (set k | k in ks) == {};
    } else {
      var rest := ks[1..];
      DistinctCount(rest);
      assert ks == [ks[0]] + rest && ks[0] !in rest;
      assert (set k | k in ks) == {ks[0]} + (set k | k in rest);
    }
  }

  lemma OrderCountsKeys(s: Store)
    requires Valid(s)
    ensures |s.order| == |s.hits|
  {
    DistinctCount(s.order);
    assert (set k | k in s.order) == s.hits.Keys;
  }

  lemma HitLeavesEntry(s: Store, k: Key, windowMs: int, now: int)
    ensures k in AfterHit(s, k, windowMs, now).hits
    ensures AfterHit(s, k, windowMs, now).hits[k] == HitEntry(s, k, windowMs, now)
  {}

  /** Making room keeps the entry of a key that it does not evict. */
  lemma MakingRoomKeepsOpen(s: Store, k: Key, now: int)
    requires Valid(s) && Open(s, k, now)
    requires var w := Swept(s, now); |w.order| < MAX_KEYS || k !in w.order[..DROP]
    ensures k in MadeRoom(s, now).hits && MadeRoom(s, now).hits[k] == s.hits[k]
  {
    var w := Swept(s, now);
    SweptKeepsValid(s, now);
    if |w.order| >= MAX_KEYS {
      WithoutFirstOf(w.hits, w.order, DROP);
    }
  }

  /** A step that neither hits nor evicts a key leaves its open window alone. */
  lemma StepKeepsOpen(s: Store, o: Op, k: Key)
    requires Valid(s) && Open(s, k, o.now) && !HitsKey(o, k) && !Evicts(s, o, k)
    ensures k in After(s, o).hits && After(s, o).hits[k] == s.hits[k]
  {
    if o.Sweep? {
      SweptKeepsValid(s, o.now);
    } else if !Open(s, o.key, o.now) && |s.order| >= MAX_KEYS {
      MakingRoomKeepsOpen(s, k, o.now);
    }
  }

  lemma MakingRoomAddsNothing(s: Store, k: Key, now: int)
    requires Valid(s) && k in MadeRoom(s, now).hits
    ensures k in s.hits && MadeRoom(s, now).hits[k] == s.hits[k]
  {
    SweptKeepsValid(s, now);
    DropKeepsValid(Swept(s, now));
  }

  /** No step that does not hit a key invents an entry for it, evictions or not. */
  lemma StepAddsNothing(s: Store, o: Op, k: Key)
    requires Valid(s) && !HitsKey(o, k) && k in After(s, o).hits
    ensures k in s.hits && After(s, o).hits[k] == s.hits[k]
  {
    if o.Sweep? {
      SweptKeepsValid(s, o.now);
    } else if !Open(s, o.key, o.now) && |s.order| >= MAX_KEYS {
      MakingRoomAddsNothing(s, k, o.now);
    }
  }

  // ---- The Redis script ----

  datatype Counter = Counter(value: nat, deadline: Option<int>)
  type Redis = map<Key, Counter>

  /** Redis forgets a key at its deadline. */
  function Expired(db: Redis, now: int): Redis {
    map k | k in db && (db[k].deadline.None? || db[k].deadline.value > now) :: db[k]
  }

  function Incr(db: Redis, k: Key): Redis {
    db[k := if k in db then Counter(db[k].value + 1, db[k].deadline) else Counter(1, None)]
  }

  /** A non-positive time deletes the key. */
  function Pexpire(db: Redis, k: Key, ms: int, now: int): Redis {
    if k !in db then db
    else if ms <= 0 then db - {k}
    else db[k := Counter(db[k].value, Some(now + ms))]
  }

  function Pttl(db: Redis, k: Key, now: int): int {
    if k !in db then -2 else if db[k].deadline.None? then -1 else db[k].deadline.value - now
  }

  /** The script, command by command, and the caller's clamp of the remaining time. */
  function Script(db: Redis, k: Key, windowMs: int, now: int): (Redis, Output) {
    var d1 := Incr(Expired(db, now), k);
    var c := d1[k].value;
    var d2 := if c == 1 then Pexpire(d1, k, windowMs, now) else d1;
    var t := Pttl(d2, k, now);
    var d3 := if t < 0 then Pexpire(d2, k, windowMs, now) else d2;
    var u := if t < 0 then windowMs else t;
    (d3, Output(c, if u > 0 then u else 0))
  }

  /** Redis sees the hits only. */
  function RedisRun(ops: seq<Op>): Redis {
    if ops == [] then map[]
    else
      var db := RedisRun(Front(ops));
      match Last(ops)
      case Hit(k, w, now) => Script(db, k, w, now).0
      case Sweep(_) => db
  }

  /** The two counters hold the same window for a key, as far as it is open after `now`. */
  predicate Agree(s: Store, db: Redis, k: Key, now: int) {
    && (k in db ==> db[k].deadline.Some?)
    && (Open(s, k, now) <==> k in db && db[k].deadline.value > now)
    && (Open(s, k, now) ==> s.hits[k].count >= 1 && db[k] == Counter(s.hits[k].count, Some(s.hits[k].resetAt)))
  }

  lemma SameAnswer(s: Store, db: Redis, k: Key, windowMs: int, now: int)
    requires Agree(s, db, k, now)
    ensures Answer(s, k, windowMs, now) == Script(db, k, windowMs, now).1
    ensures forall t :: t >= now ==> Agree(AfterHit(s, k, windowMs, now), Script(db, k, windowMs, now).0, k, t)
  {
    HitLeavesEntry(s, k, windowMs, now);
    assert Open(s, k, now) <==> k in Expired(db, now);
    var d1 := Incr(Expired(db, now), k);
    assert d1[k].value == HitEntry(s, k, windowMs, now).count;
  }

  lemma OtherStepAgrees(s: Store, db: Redis, o: Op, k: Key, now: int)
    requires Valid(s) && Agree(s, db, k, o.now) && o.now <= now
    requires !HitsKey(o, k) && !Evicts(s, o, k)
    ensures Agree(After(s, o), if o.Hit? then Script(db, o.key, o.windowMs, o.now).0 else db, k, now)
  {
    var d := if o.Hit? then Script(db, o.key, o.windowMs, o.now).0 else db;
    assert k in d ==> k in db && d[k] == db[k];
    assert k in db && db[k].deadline.value > o.now ==> k in d;
    if Open(s, k, o.now) {
      StepKeepsOpen(s, o, k);
    } else if k in After(s, o).hits {
      StepAddsNothing(s, o, k);
    }
  }

  lemma {:induction false} RunsAgree(ops: seq<Op>, k: Key, now: int)
    requires Monotone(ops) && NeverEvicted(ops, k) && EndsBy(ops, now)
    ensures Agree(Run(ops), RedisRun(ops), k, now)
    decreases |ops|
  {
    if ops != [] {
      var o, before := Last(ops), Front(ops);
      RunStaysBounded(before);
      RunsAgree(before, k, o.now);
      if HitsKey(o, k) {
        SameAnswer(Run(before), RedisRun(before), k, o.windowMs, o.now);
      } else {
        OtherStepAgrees(Run(before), RedisRun(before), o, k, now);
      }
    }
  }

  /** The fallback refines Redis: whatever the windows asked for, a hit on a key that no step evicted
      gets the count and the remaining time that the script gives. */
  lemma FallbackAnswersAsRedis(ops: seq<Op>, k: Key, windowMs: int, now: int)
    requires Monotone(ops) && EndsBy(ops, now) && NeverEvicted(ops, k)
    ensures Answer(Run(ops), k, windowMs, now) == Script(RedisRun(ops), k, windowMs, now).1
  {
    RunsAgree(ops, k, now);
    SameAnswer(Run(ops), RedisRun(ops), k, windowMs, now);
  }

  // ---- With evictions the fallback only under-counts ----

  predicate ConstantWindow(ops: seq<Op>, k: Key, windowMs: int) {
    ops == [] || (ConstantWindow(Front(ops), k, windowMs) && (HitsKey(Last(ops), k) ==> Last(ops).windowMs == windowMs))
  }

  /** The hits on a key at or after a time. */
  function HitsSince(ops: seq<Op>, k: Key, from: int): nat {
    if ops == [] then 0
    else HitsSince(Front(ops), k, from) + if HitsKey(Last(ops), k) && Last(ops).now >= from then 1 else 0
  }

  predicate BackedByHits(e: Entry, ops: seq<Op>, k: Key, w: int, now: int) {
    1 <= e.count <= HitsSince(ops, k, e.resetAt - w) && e.resetAt - w <= now
  }

  lemma {:induction false} CountIsBackedByHits(ops: seq<Op>, k: Key, w: int, now: int)
    requires Monotone(ops) && ConstantWindow(ops, k, w) && EndsBy(ops, now)
    ensures k in Run(ops).hits ==> BackedByHits(Run(ops).hits[k], ops, k, w, now)
    decreases |ops|
  {
    if ops != [] {
      var o, before := Last(ops), Front(ops);
      RunStaysBounded(before);
      CountIsBackedByHits(before, k, w, o.now);
      StepIsBackedByHits(Run(before), before, o, k, w, now);
      assert before + [o] == ops;
    }
  }

  lemma StepIsBackedByHits(s: Store, before: seq<Op>, o: Op, k: Key, w: int, now: int)
    requires Valid(s) && o.now <= now && (HitsKey(o, k) ==> o.windowMs == w)
    requires k in s.hits ==> BackedByHits(s.hits[k], before, k, w, o.now)
    ensures k in After(s, o).hits ==> BackedByHits(After(s, o).hits[k], before + [o], k, w, now)
  {
    assert Front(before + [o]) == before;
    if HitsKey(o, k) {
      HitLeavesEntry(s, k, o.windowMs, o.now);
    } else if k in After(s, o).hits {
      StepAddsNothing(s, o, k);
    }
  }

  lemma {:induction false} HitsSinceMonotone(ops: seq<Op>, k: Key, from: int, to: int)
    requires from <= to
    ensures HitsSince(ops, k, to) <= HitsSince(ops, k, from)
    decreases |ops|
  {
    if ops != [] { HitsSinceMonotone(Front(ops), k, from, to); }
  }

  /** Evictions or not, a reported count never exceeds the hits on the key in the last window,
      this one included. */
  lemma NeverOvercounts(ops: seq<Op>, k: Key, w: int, now: int)
    requires w > 0 && Monotone(ops) && EndsBy(ops, now) && ConstantWindow(ops, k, w)
    ensures Answer(Run(ops), k, w, now).count <= HitsSince(ops, k, now - w + 1) + 1
  {
    CountIsBackedByHits(ops, k, w, now);
    var s := Run(ops);
    if Open(s, k, now) {
      HitsSinceMonotone(ops, k, now - w + 1, s.hits[k].resetAt - w);
    }
  }

  // ---- The bound on admitted hits ----

  /** A hit on the key in [from, from + w) that is given a count of at most m. */
  predicate Admits(s: Store, o: Op, k: Key, from: int, w: int, m: nat) {
    HitsKey(o, k) && from <= o.now < from + w && Answer(s, k, o.windowMs, o.now).count <= m
  }

  function Admitted(ops: seq<Op>, k: Key, from: int, w: int, m: nat): nat {
    if ops == [] then 0
    else Admitted(Front(ops), k, from, w, m) + if Admits(Run(Front(ops)), Last(ops), k, from, w, m) then 1 else 0
  }

  /** The entry as the last hit on the key left it. */
  function LastEntry(ops: seq<Op>, k: Key): Option<Entry> {
    if ops == [] then None
    else if HitsKey(Last(ops), k) then
      Some(HitEntry(Run(Front(ops)), k, Last(ops).windowMs, Last(ops).now))
    else LastEntry(Front(ops), k)
  }

  predicate Stored(s: Store, last: Option<Entry>, k: Key, now: int) {
    && (k in s.hits ==> last == Some(s.hits[k]))
    && (last.Some? && last.value.resetAt > now ==> k in s.hits)
  }

  lemma {:induction false} LastEntryIsStored(ops: seq<Op>, k: Key, now: int)
    requires Monotone(ops) && NeverEvicted(ops, k) && EndsBy(ops, now)
    ensures Stored(Run(ops), LastEntry(ops, k), k, now)
    decreases |ops|
  {
    if ops != [] {
      var o, before := Last(ops), Front(ops);
      RunStaysBounded(before);
      LastEntryIsStored(before, k, o.now);
      if HitsKey(o, k) {
        HitLeavesEntry(Run(before), k, o.windowMs, o.now);
      } else {
        if Open(Run(before), k, o.now) { StepKeepsOpen(Run(before), o, k); }
        if k in Run(ops).hits { StepAddsNothing(Run(before), o, k); }
      }
    }
  }

  function Min(a: int, b: int): int { if a < b then a else b }

  /** What can have been admitted in [from, from + w) when the last window of the key is e: windows
      start at least w apart, so at most two of them meet the interval, and the first hit of the
      earlier one lies before it. */
  function Budget(last: Option<Entry>, from: int, w: int, m: nat): int {
    if last.None? || m == 0 then 0
    else
      var e := last.value;
      var start := e.resetAt - w;
      if start <= from - w then 0
      else if start < from then Min(e.count, m) - 1
      else if start < from + w then m - 1 + Min(e.count, m)
      else 2 * m - 1
  }

  predicate Started(last: Option<Entry>, w: int, now: int) {
    last.Some? ==> last.value.count >= 1 && last.value.resetAt - w <= now
  }

  /** One hit spends at most one of the budget. */
  lemma HitWithinBudget(s: Store, last: Option<Entry>, o: Op, k: Key, from: int, w: int, m: nat)
    requires w > 0 && HitsKey(o, k) && o.windowMs == w
    requires Stored(s, last, k, o.now) && Started(last, w, o.now)
    ensures var e := Some(HitEntry(s, k, w, o.now));
            && Started(e, w, o.now)
            && Budget(last, from, w, m) + (if Admits(s, o, k, from, w, m) then 1 else 0) <= Budget(e, from, w, m)
  {}

  lemma {:induction false} AdmittedWithinBudget(ops: seq<Op>, k: Key, from: int, w: int, m: nat, now: int)
    requires w > 0 && Monotone(ops) && NeverEvicted(ops, k) && ConstantWindow(ops, k, w) && EndsBy(ops, now)
    ensures Admitted(ops, k, from, w, m) <= Budget(LastEntry(ops, k), from, w, m)
    ensures Started(LastEntry(ops, k), w, now)
    decreases |ops|
  {
    if ops != [] {
      var o, before := Last(ops), Front(ops);
      AdmittedWithinBudget(before, k, from, w, m, o.now);
      if HitsKey(o, k) {
        LastEntryIsStored(before, k, o.now);
        HitWithinBudget(Run(before), LastEntry(before, k), o, k, from, w, m);
      }
    }
  }

  /** In no interval of the window's length are more than 2m - 1 hits on a key let through by a limit
      of m >= 1, whatever the hit history, as long as the key was never evicted. */
  lemma AtMostTwiceTheLimit(ops: seq<Op>, k: Key, from: int, w: int, m: nat)
    requires w > 0 && Monotone(ops) && NeverEvicted(ops, k) && ConstantWindow(ops, k, w)
    ensures Admitted(ops, k, from, w, m) <= if m == 0 then 0 else 2 * m - 1
  {
    if ops != [] {
      AdmittedWithinBudget(ops, k, from, w, m, Last(ops).now);
    }
  }

  /** The same hit n times over. */
  function Burst(ops: seq<Op>, h: Op, n: nat): seq<Op>
    decreases n
  {
    if n == 0 then ops else Burst(ops + [h], h, n - 1)
  }

  predicate Regular(ops: seq<Op>, k: Key, w: int, now: int) {
    Monotone(ops) && EndsBy(ops, now) && NeverEvicted(ops, k) && ConstantWindow(ops, k, w)
  }

  /** A run that left the map with one key, after which a admitted hits have been counted. */
  predicate Reached(ops: seq<Op>, k: Key, w: int, now: int, e: Entry, from: int, m: nat, a: nat) {
    Regular(ops, k, w, now) && Holds(Run(ops), k, e) && Admitted(ops, k, from, w, m) == a
  }

  predicate Holds(s: Store, k: Key, e: Entry) { s == Store([k], map[k := e]) }

  lemma OneMoreHit(ops: seq<Op>, k: Key, w: int, t: int, e: Entry, from: int, m: nat)
    requires Holds(Run(ops), k, e) && Regular(ops, k, w, t)
    ensures var after := ops + [Hit(k, w, t)];
            && Regular(after, k, w, t)
            && Holds(Run(after), k, if e.resetAt > t then Entry(e.count + 1, e.resetAt) else Entry(1, t + w))
            && Admitted(after, k, from, w, m) == Admitted(ops, k, from, w, m) +
                 (if Admits(Run(ops), Hit(k, w, t), k, from, w, m) then 1 else 0)
  {
    assert Front(ops + [Hit(k, w, t)]) == ops;
  }

  lemma OneMoreAdmitted(ops: seq<Op>, k: Key, w: int, t: int, e: Entry, from: int, m: nat, a: nat)
    requires Reached(ops, k, w, t, e, from, m, a)
    requires e.resetAt > t && e.count < m && from <= t < from + w
    ensures Reached(ops + [Hit(k, w, t)], k, w, t, Entry(e.count + 1, e.resetAt), from, m, a + 1)
  {
    OneMoreHit(ops, k, w, t, e, from, m);
  }

  lemma FirstHit(k: Key, w: int, t: int)
    ensures var after := [Hit(k, w, t)];
            Regular(after, k, w, t) && Holds(Run(after), k, Entry(1, t + w))
  {
    var none: seq<Op> := [];
    assert Monotone(none) && NeverEvicted(none, k) && ConstantWindow(none, k, w);
    assert Front([Hit(k, w, t)]) == none;
  }

  lemma {:induction false} BurstIsAdmitted(ops: seq<Op>, k: Key, w: int, t: int, n: nat, e: Entry, from: int, m: nat,
                                           a: nat)
    requires Reached(ops, k, w, t, e, from, m, a)
    requires e.resetAt > t && e.count + n <= m && from <= t < from + w
    ensures Reached(Burst(ops, Hit(k, w, t), n), k, w, t, Entry(e.count + n, e.resetAt), from, m, a + n)
    decreases n
  {
    if n > 0 {
      OneMoreAdmitted(ops, k, w, t, e, from, m, a);
      BurstIsAdmitted(ops + [Hit(k, w, t)], k, w, t, n - 1, Entry(e.count + 1, e.resetAt), from, m, a + 1);
    }
  }

  /** The bound is exact: for every limit and window some history lets 2m - 1 hits through, by filling
      one window at its very end and the next at its very start. */
  lemma TheBoundIsReached(k: Key, w: int, m: nat) returns (ops: seq<Op>)
    requires w >= 2 && m >= 1
    ensures Regular(ops, k, w, w) && Admitted(ops, k, 1, w, m) == 2 * m - 1
  {
    var first := [Hit(k, w, 0)];
    FirstHit(k, w, 0);
    assert Regular(first, k, w, w - 1);
    BurstIsAdmitted(first, k, w, w - 1, m - 1, Entry(1, w), 1, m, 0);
    var full := Burst(first, Hit(k, w, w - 1), m - 1);
    assert Regular(full, k, w, w);
    OneMoreHit(full, k, w, w, Entry(m, w), 1, m);
    var again := full + [Hit(k, w, w)];
    BurstIsAdmitted(again, k, w, w, m - 1, Entry(1, 2 * w), 1, m, m);
    ops := Burst(again, Hit(k, w, w), m - 1);
  }
}
