/** The in-memory fixed-window rate limiter and the Redis script it stands in for
    (memory-rate-limit.store.ts, redis.cli.ts). */
module RateLimit {
  import opened Collections

  type Key = string

  const MAX_KEYS: nat := 200_000
  /** A tenth of the keys, rounded up. */
  const DROP: nat := (MAX_KEYS + 9) / 10

  datatype Entry = Entry(count: nat, resetAt: int)

  /** The Map: its entries, and its keys in insertion order. */
  datatype Store = Store(order: seq<Key>, hits: map<Key, Entry>)

  datatype Output = Output(count: nat, resetInMs: int)

  predicate Valid(s: Store) {
    && Distinct(s.order)
    && (forall k <- s.hits :: k in s.order)
    && (forall k <- s.order :: k in s.hits)
  }

  const EMPTY := Store([], map[])

  function Remaining(e: Entry, now: int): int { if e.resetAt > now then e.resetAt - now else 0 }

  /** The keys whose window is still open, in order. */
  function LiveKeys(order: seq<Key>, hits: map<Key, Entry>, now: int): seq<Key> {
    if order == [] then []
    else
      (if order[0] in hits && hits[order[0]].resetAt > now then [order[0]] else []) + LiveKeys(order[1..], hits, now)
  }

  function Restricted(hits: map<Key, Entry>, ks: seq<Key>): map<Key, Entry> {
    map k | k in hits && k in ks :: hits[k]
  }

  function Swept(s: Store, now: int): Store {
    var live := LiveKeys(s.order, s.hits, now);
    Store(live, Restricted(s.hits, live))
  }

  /** The entries left when the first n keys of ks are deleted. */
  function WithoutFirst(hits: map<Key, Entry>, ks: seq<Key>, n: nat): map<Key, Entry>
    requires n <= |ks|
  {
    if n == 0 then hits else WithoutFirst(hits, ks, n - 1) - {ks[n - 1]}
  }

  function DropOldest(s: Store): Store {
    var n := if DROP <= |s.order| then DROP else |s.order|;
    Store(s.order[n..], WithoutFirst(s.hits, s.order, n))
  }

  function MadeRoom(s: Store, now: int): Store {
    var w := Swept(s, now);
    if |w.order| < MAX_KEYS then w else DropOldest(w)
  }

  predicate Open(s: Store, k: Key, now: int) { k in s.hits && s.hits[k].resetAt > now }

  /** A new window for a key: room is made first, and setting an existing key keeps its place. */
  function Opened(s: Store, k: Key, e: Entry, now: int): Store {
    var r := if |s.order| >= MAX_KEYS then MadeRoom(s, now) else s;
    Store(if k in r.hits then r.order else r.order + [k], r.hits[k := e])
  }

  function AfterHit(s: Store, k: Key, windowMs: int, now: int): Store {
    if Open(s, k, now) then s.(hits := s.hits[k := Entry(s.hits[k].count + 1, s.hits[k].resetAt)])
    else Opened(s, k, Entry(1, now + windowMs), now)
  }

  // ---- The store as the source has it ----

  class MemoryRateLimitStore {
    var order: seq<Key>
    var hits: map<Key, Entry>

    ghost function View(): Store reads this { Store(order, hits) }

    constructor ()
      ensures View() == EMPTY
    {
      order, hits := [], map[];
    }

    method Hit(key: Key, windowMs: int, now: int) returns (r: Output)
      requires Valid(View())
      modifies this
      ensures View() == AfterHit(old(View()), key, windowMs, now) && Valid(View())
      ensures key in hits && r == Output(hits[key].count, Remaining(hits[key], now))
      ensures |old(order)| <= MAX_KEYS ==> |order| <= MAX_KEYS
    {
      ghost var s := View();
      HitKeepsValid(s, key, windowMs, now);
      var e: Entry;
      if key !in hits || hits[key].resetAt <= now {
        OpenWindow(key, windowMs, now);
        OpenedThenCounted(s, key, Entry(0, now + windowMs), Entry(1, now + windowMs), now);
        e := Entry(0, now + windowMs);
      } else {
        e := hits[key];
      }
      e := Entry(e.count + 1, e.resetAt);
      hits := hits[key := e];
      assert View() == AfterHit(s, key, windowMs, now);
      r := Output(e.count, if 0 >= e.resetAt - now then 0 else e.resetAt - now);
    }

    /** The part of `hit` that runs when the key has no open window. */
    method OpenWindow(key: Key, windowMs: int, now: int)
      requires Valid(View()) && !Open(View(), key, now)
      modifies this
      ensures View() == Opened(old(View()), key, Entry(0, now + windowMs), now)
    {
      if |order| >= MAX_KEYS {
        MakeRoom(now);
      }
      if key !in hits {
        order := order + [key];
      }
      hits := hits[key := Entry(0, now + windowMs)];
    }

    method Sweep(now: int)
      requires Valid(View())
      modifies this
      ensures View() == Swept(old(View()), now) && Valid(View())
    {
      ghost var s := View();
      var all, kept, i := order, [], 0;
      SweepStarts(s, now);
      while i < |all|
        invariant 0 <= i <= |all| && all == s.order
        invariant SweptSoFar(s, kept, all[i..], hits, now)
      {
        var k := all[i];
        SweepKeeps(s, kept, all[i..], hits, now);
        assert all[i..][0] == k && all[i..][1..] == all[i + 1..];
        if hits[k].resetAt <= now {
          SweepDeletes(s, kept, all[i..], hits, now);
          hits := hits - {k};
        } else {
          kept := kept + [k];
        }
        i := i + 1;
      }
      SweepEnds(s, kept, hits, now);
      order := kept;
      SweptKeepsValid(s, now);
    }

    method MakeRoom(now: int)
      requires Valid(View())
      modifies this
      ensures View() == MadeRoom(old(View()), now)
    {
      Sweep(now);
      if |order| < MAX_KEYS {
        return;
      }
      DropOldestKeys();
    }

    /** The loop that leaves the Map iterator after a tenth of the keys. */
    method DropOldestKeys()
      requires |order| >= MAX_KEYS
      modifies this
      ensures View() == DropOldest(old(View()))
    {
      var n := DROP;
      var i := 0;
      while i < |order|
        invariant 0 <= i < DROP && n == DROP - i && order == old(order)
        invariant hits == WithoutFirst(old(hits), order, i)
      {
        hits := hits - {order[i]};
        i := i + 1;
        n := n - 1;
        if n <= 0 { break; }
      }
      order := order[i..];
    }
  }

  lemma OpenedThenCounted(s: Store, k: Key, d: Entry, e: Entry, now: int)
    ensures var o := Opened(s, k, d, now);
            Opened(s, k, e, now) == Store(o.order, o.hits[k := e])
  {}

  // ---- The sweep, key by key ----

  /** With `kept` found live and `rest` still to come. */
  ghost predicate SweptSoFar(s: Store, kept: seq<Key>, rest: seq<Key>, hits: map<Key, Entry>, now: int) {
    && kept + LiveKeys(rest, s.hits, now) == LiveKeys(s.order, s.hits, now)
    && Distinct(kept + rest)
    && (forall k <- kept + rest :: k in s.hits)
    && hits == Restricted(s.hits, kept + rest)
  }

  lemma SweepStarts(s: Store, now: int)
    requires Valid(s)
    ensures SweptSoFar(s, [], s.order[0..], s.hits, now)
  {
    assert [] + s.order[0..] == s.order == s.order[0..];
    assert [] + LiveKeys(s.order, s.hits, now) == LiveKeys(s.order, s.hits, now);
  }

  lemma SweepEnds(s: Store, kept: seq<Key>, hits: map<Key, Entry>, now: int)
    requires SweptSoFar(s, kept, [], hits, now)
    ensures Store(kept, hits) == Swept(s, now)
  {
    assert kept + [] == kept;
  }

  lemma SweepKeeps(s: Store, kept: seq<Key>, rest: seq<Key>, hits: map<Key, Entry>, now: int)
    requires SweptSoFar(s, kept, rest, hits, now) && rest != []
    ensures rest[0] in hits && hits[rest[0]] == s.hits[rest[0]]
    ensures hits[rest[0]].resetAt > now ==> SweptSoFar(s, kept + [rest[0]], rest[1..], hits, now)
  {
    assert rest == [rest[0]] + rest[1..];
    assert kept + rest == (kept + [rest[0]]) + rest[1..];
    assert (kept + rest)[|kept|] == rest[0];
    if s.hits[rest[0]].resetAt > now {
      assert LiveKeys(rest, s.hits, now) == [rest[0]] + LiveKeys(rest[1..], s.hits, now);
      assert kept + LiveKeys(rest, s.hits, now) == (kept + [rest[0]]) + LiveKeys(rest[1..], s.hits, now);
    }
  }

  lemma SweepDeletes(s: Store, kept: seq<Key>, rest: seq<Key>, hits: map<Key, Entry>, now: int)
    requires SweptSoFar(s, kept, rest, hits, now) && rest != []
    requires s.hits[rest[0]].resetAt <= now
    ensures SweptSoFar(s, kept, rest[1..], hits - {rest[0]}, now)
  {
    var k, after := rest[0], kept + rest[1..];
    assert rest == [k] + rest[1..];
    DistinctWithout(kept, k, rest[1..]);
    assert forall x :: x in kept + rest <==> x == k || x in after;
  }

  lemma DistinctWithout(a: seq<Key>, k: Key, b: seq<Key>)
    requires Distinct(a + ([k] + b))
    ensures Distinct(a + b) && k !in a + b
  {
    var all := a + ([k] + b);
    assert all[|a|] == k;
    forall i | 0 <= i < |a + b| ensures (a + b)[i] != k && (a + b)[i] == all[if i < |a| then i else i + 1] {
      var j := if i < |a| then i else i + 1;
      assert all[j] == (a + b)[i];
    }
  }

  lemma {:induction false} WithoutFirstOf(hits: map<Key, Entry>, ks: seq<Key>, n: nat)
    requires n <= |ks|
    ensures forall k :: k in WithoutFirst(hits, ks, n) <==> k in hits && k !in ks[..n]
    ensures forall k <- WithoutFirst(hits, ks, n) :: WithoutFirst(hits, ks, n)[k] == hits[k]
  {
    if n > 0 {
      WithoutFirstOf(hits, ks, n - 1);
      assert ks[..n] == ks[..n - 1] + [ks[n - 1]];
    }
  }

  // ---- The Map stays a map with at most MAX_KEYS keys ----

  lemma {:induction false} LiveKeysOf(order: seq<Key>, hits: map<Key, Entry>, now: int)
    requires Distinct(order)
    ensures var l := LiveKeys(order, hits, now);
            && Distinct(l) && |l| <= |order|
            && (forall k :: k in l <==> k in order && k in hits && hits[k].resetAt > now)
    decreases |order|
  {
    if order != [] {
      LiveKeysOf(order[1..], hits, now);
      var l := LiveKeys(order, hits, now);
      assert order == [order[0]] + order[1..];
      assert order[0] !in order[1..];
    }
  }

  lemma SweptKeepsValid(s: Store, now: int)
    requires Valid(s)
    ensures Valid(Swept(s, now)) && |Swept(s, now).order| <= |s.order|
    ensures forall k :: k in Swept(s, now).hits <==> Open(s, k, now)
    ensures forall k :: Open(s, k, now) ==> Swept(s, now).hits[k] == s.hits[k]
  {
    LiveKeysOf(s.order, s.hits, now);
  }

  lemma DropKeepsValid(s: Store)
    requires Valid(s)
    ensures Valid(DropOldest(s))
    ensures |s.order| >= DROP ==> |DropOldest(s).order| == |s.order| - DROP
    ensures forall k <- s.order :: k in DropOldest(s).hits <==> k in DropOldest(s).order
    ensures forall k <- DropOldest(s).hits :: k in s.hits && DropOldest(s).hits[k] == s.hits[k]
  {
    var n := if DROP <= |s.order| then DROP else |s.order|;
    WithoutFirstOf(s.hits, s.order, n);
    assert s.order == s.order[..n] + s.order[n..];
  }

  lemma MadeRoomMakesRoom(s: Store, now: int)
    requires Valid(s) && |s.order| <= MAX_KEYS
    ensures Valid(MadeRoom(s, now)) && |MadeRoom(s, now).order| < MAX_KEYS
  {
    SweptKeepsValid(s, now);
    DropKeepsValid(Swept(s, now));
  }

  predicate AllOpen(s: Store, now: int) { forall k <- s.order :: Open(s, k, now) }

  lemma {:induction false} LiveKeysKeepOrder(order: seq<Key>, hits: map<Key, Entry>, now: int)
    ensures |LiveKeys(order, hits, now)| <= |order|
    ensures |LiveKeys(order, hits, now)| == |order| <==>
              forall k <- order :: k in hits && hits[k].resetAt > now
    ensures |LiveKeys(order, hits, now)| == |order| ==> LiveKeys(order, hits, now) == order
    decreases |order|
  {
    if order != [] {
      LiveKeysKeepOrder(order[1..], hits, now);
      assert order == [order[0]] + order[1..];
    }
  }

  /** What a full map gives up to make room: its closed windows if it has any, and otherwise the twenty
      thousand keys that have been in it longest. */
  lemma FullMapGivesUp(s: Store, now: int)
    requires Valid(s) && |s.order| == 200_000
    ensures AllOpen(s, now) ==>
              && MadeRoom(s, now).order == s.order[20_000..]
              && forall k :: k in MadeRoom(s, now).hits <==> k in s.order[20_000..]
    ensures !AllOpen(s, now) ==> forall k :: k in MadeRoom(s, now).hits <==> Open(s, k, now)
  {
    LiveKeysKeepOrder(s.order, s.hits, now);
    SweptKeepsValid(s, now);
    if AllOpen(s, now) {
      assert Swept(s, now).order == s.order;
      DropsTenth(Swept(s, now));
    }
  }

  lemma DropsTenth(s: Store)
    requires Valid(s) && |s.order| == 200_000
    ensures DropOldest(s).order == s.order[20_000..]
    ensures forall k :: k in DropOldest(s).hits <==> k in s.order[20_000..]
  {
    DropKeepsValid(s);
  }

  lemma HitKeepsValid(s: Store, k: Key, windowMs: int, now: int)
    requires Valid(s)
    ensures Valid(AfterHit(s, k, windowMs, now))
    ensures |s.order| <= MAX_KEYS ==> |AfterHit(s, k, windowMs, now).order| <= MAX_KEYS
  {
    if !Open(s, k, now) {
      SweptKeepsValid(s, now);
      DropKeepsValid(Swept(s, now));
      if |s.order| <= MAX_KEYS { MadeRoomMakesRoom(s, now); }
      var r := if |s.order| >= MAX_KEYS then MadeRoom(s, now) else s;
      assert Valid(r);
      assert k !in r.hits ==> k !in r.order;
    }
  }
}
