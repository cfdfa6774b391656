/** What the read model is after any interleaving of the claim protocol: the plain fold of the
    handlers over the committed events, each once, in a serialization order that differs from the
    commit order only in that a reversal may stand earlier
    (projection.consumer.ts, mongo.wrapper.ts, transfer.projection.ts, reversalProcessor.evt.ts). */
module ExactlyOnce {
  import opened Projections
  import opened Claims
  import R = ClaimRouting

  function BodyOf(c: Commit): Body { c.d.event.body }

  function Bodies(cs: seq<Commit>): seq<Body> { seq(|cs|, i requires 0 <= i < |cs| => BodyOf(cs[i])) }

  // ---- The serialization order ----

  predicate CreatesMissed(e: Commit, c: Commit) { c.missed * Creates(BodyOf(e)) != {} }

  /** The first transaction that created a summary which c missed, or the end. */
  function Place(order: seq<Commit>, c: Commit): (p: nat)
    ensures p <= |order|
    ensures forall i :: 0 <= i < p ==> !CreatesMissed(order[i], c)
    ensures p < |order| ==> CreatesMissed(order[p], c)
  {
    if order == [] || CreatesMissed(order[0], c) then 0 else 1 + Place(order[1..], c)
  }

  /** A transaction takes its place at the end, or before the first one that created a summary it
      missed. */
  function Placed(order: seq<Commit>, c: Commit): seq<Commit> {
    var p := Place(order, c);
    order[..p] + ([c] + order[p..])
  }

  function Serial(log: seq<Commit>): seq<Commit> {
    if log == [] then [] else Placed(Serial(log[..|log| - 1]), log[|log| - 1])
  }

  lemma {:induction false} SerialIsPermutation(log: seq<Commit>)
    ensures multiset(Serial(log)) == multiset(log)
    decreases |log|
  {
    if log != [] {
      var front, c := log[..|log| - 1], log[|log| - 1];
      SerialIsPermutation(front);
      InsertedElements(Serial(front), c, Place(Serial(front), c));
      InsertedElements(front, c, |front|);
      assert log == front[..|front|] + ([c] + front[|front|..]);
    }
  }

  lemma InsertedElements(cs: seq<Commit>, c: Commit, p: nat)
    requires p <= |cs|
    ensures multiset(cs[..p] + ([c] + cs[p..])) == multiset(cs) + multiset{c}
  {
    assert cs == cs[..p] + cs[p..];
  }

  lemma SameElements(log: seq<Commit>)
    ensures forall c :: c in Serial(log) <==> c in log
  {
    SerialIsPermutation(log);
    forall c ensures c in Serial(log) <==> c in log {
      assert c in multiset(Serial(log)) <==> c in multiset(log);
    }
  }

  /** Only reversals stand before transactions that committed earlier. */
  predicate InOrder(order: seq<Commit>) {
    forall i, j :: 0 <= i < j < |order| && !BodyOf(order[i]).Reversal? ==> order[i].at < order[j].at
  }

  lemma PlacedInOrder(order: seq<Commit>, c: Commit)
    requires InOrder(order) && (forall e <- order :: e.at < c.at)
    requires Place(order, c) < |order| ==> BodyOf(c).Reversal?
    ensures InOrder(Placed(order, c))
  {
    var p := Place(order, c);
    InsertedInOrder(order, c, p);
  }

  lemma InsertedInOrder(order: seq<Commit>, c: Commit, p: nat)
    requires p <= |order| && InOrder(order) && (forall e <- order :: e.at < c.at)
    requires p < |order| ==> BodyOf(c).Reversal?
    ensures InOrder(order[..p] + ([c] + order[p..]))
  {
    var placed := order[..p] + ([c] + order[p..]);
    assert forall i :: 0 <= i < p ==> placed[i] == order[i];
    assert forall i :: p < i < |placed| ==> placed[i] == order[i - 1];
    assert placed[p] == c;
    assert forall i :: 0 <= i < |order| ==> order[i] in order;
  }

  // ---- Keys of a fold ----

  lemma {:induction false} FoldKeys(m: Summaries, cs: seq<Commit>, u: UserId)
    ensures u in Fold(m, Bodies(cs)) <==> u in m || exists c :: c in cs && u in Creates(BodyOf(c))
    decreases |cs|
  {
    if cs != [] {
      var b := BodyOf(cs[0]);
      assert Bodies(cs)[1..] == Bodies(cs[1..]);
      FoldKeys(Apply(m, b), cs[1..], u);
      ApplyKeys(m, b, u);
      assert forall c :: c in cs <==> c == cs[0] || c in cs[1..];
    }
  }

  lemma {:induction false} FoldAppend(m: Summaries, xs: seq<Commit>, ys: seq<Commit>)
    ensures Fold(m, Bodies(xs + ys)) == Fold(Fold(m, Bodies(xs)), Bodies(ys))
    decreases |xs|
  {
    if xs == [] {
      assert xs + ys == ys;
    } else {
      assert Bodies(xs + ys)[1..] == Bodies(xs[1..] + ys);
      assert Bodies(xs)[1..] == Bodies(xs[1..]);
      FoldAppend(Apply(m, BodyOf(xs[0])), xs[1..], ys);
    }
  }

  lemma FoldOne(m: Summaries, c: Commit)
    ensures Fold(m, Bodies([c])) == Apply(m, BodyOf(c))
  {
    assert Bodies([c])[1..] == [];
  }

  // ---- A reversal can be moved ahead of transactions that write elsewhere ----

  /** The recorded write sets are those of the fold. */
  ghost predicate WritesMatch(m: Summaries, cs: seq<Commit>)
    decreases |cs|
  {
    cs != [] ==> cs[0].writes == Writes(BodyOf(cs[0]), m) && WritesMatch(Apply(m, BodyOf(cs[0])), cs[1..])
  }

  /** Two read models that differ inside us only. */
  ghost predicate ApartIn(m: Summaries, n: Summaries, us: set<UserId>) {
    m.Keys == n.Keys && us <= m.Keys && forall u :: u !in us ==> SameAt(m, n, u)
  }

  lemma StepApart(m: Summaries, n: Summaries, c: Commit, us: set<UserId>)
    requires ApartIn(m, n, us) && c.writes == Writes(BodyOf(c), m) && c.writes !! us
    ensures ApartIn(Apply(m, BodyOf(c)), Apply(n, BodyOf(c)), us)
    ensures forall u <- us :: SameAt(Apply(m, BodyOf(c)), m, u) && SameAt(Apply(n, BodyOf(c)), n, u)
    ensures c.writes == Writes(BodyOf(c), n)
  {
    var b := BodyOf(c);
    assert Footprint(b) !! us;
    assert AgreeOn(m, n, Footprint(b)) by {
      assert forall u <- Footprint(b) :: SameAt(m, n, u);
    }
    forall u ensures u in Apply(m, b) <==> u in Apply(n, b) {
      ApplyKeys(m, b, u);
      ApplyKeys(n, b, u);
    }
    forall u | u !in us ensures SameAt(Apply(m, b), Apply(n, b), u) {
      if u in Footprint(b) {
        ApplyPoint(m, n, b, u);
      } else {
        ApplyLeaves(m, b, u);
        ApplyLeaves(n, b, u);
      }
    }
    forall u | u in us ensures SameAt(Apply(m, b), m, u) && SameAt(Apply(n, b), n, u) {
      ApplyLeaves(m, b, u);
      ApplyLeaves(n, b, u);
    }
  }

  /** Transactions that write nothing in us carry the difference along. */
  lemma {:induction false} FoldApart(m: Summaries, n: Summaries, cs: seq<Commit>, us: set<UserId>)
    requires ApartIn(m, n, us) && WritesMatch(m, cs) && forall c <- cs :: c.writes !! us
    ensures ApartIn(Fold(m, Bodies(cs)), Fold(n, Bodies(cs)), us) && WritesMatch(n, cs)
    ensures forall u <- us :: SameAt(Fold(m, Bodies(cs)), m, u) && SameAt(Fold(n, Bodies(cs)), n, u)
    decreases |cs|
  {
    if cs != [] {
      var b := BodyOf(cs[0]);
      assert cs[0] in cs;
      StepApart(m, n, cs[0], us);
      assert Bodies(cs)[1..] == Bodies(cs[1..]);
      FoldApart(Apply(m, b), Apply(n, b), cs[1..], us);
      forall u | u in us
        ensures SameAt(Fold(m, Bodies(cs)), m, u) && SameAt(Fold(n, Bodies(cs)), n, u)
      {
        assert SameAt(Apply(m, b), m, u) && SameAt(Apply(n, b), n, u);
      }
    }
  }

  lemma {:induction false} WritesMatchAppend(m: Summaries, xs: seq<Commit>, ys: seq<Commit>)
    ensures WritesMatch(m, xs + ys) <==> WritesMatch(m, xs) && WritesMatch(Fold(m, Bodies(xs)), ys)
    decreases |xs|
  {
    if xs == [] {
      assert xs + ys == ys;
    } else {
      assert (xs + ys)[1..] == xs[1..] + ys;
      assert Bodies(xs)[1..] == Bodies(xs[1..]);
      WritesMatchAppend(Apply(m, BodyOf(xs[0])), xs[1..], ys);
    }
  }

  // ---- The invariant ----

  predicate Numbered(log: seq<Commit>) { forall i :: 0 <= i < |log| ==> log[i].at == i }

  ghost predicate Created(log: seq<Commit>, n: nat, u: UserId) {
    exists i :: 0 <= i < n && i < |log| && u in Creates(BodyOf(log[i]))
  }

  /** The read model is the fold over the serialization order. */
  ghost predicate Serialized(m: Summaries, log: seq<Commit>, db: Summaries) {
    && Numbered(log)
    && InOrder(Serial(log))
    && WritesMatch(m, Serial(log))
    && Fold(m, Bodies(Serial(log))) == db
  }

  /** A snapshot knows the summaries created before it, and is current on what was not written since. */
  ghost predicate SnapOk(m: Summaries, log: seq<Commit>, db: Summaries, snap: Summaries, since: nat) {
    && since <= |log|
    && (forall u :: u in snap <==> u in m || Created(log, since, u))
    && (forall u :: Untouched(log, since, {u}) ==> SameAt(snap, db, u))
  }

  ghost predicate SerialInv(m: Summaries, s: State) {
    && Serialized(m, s.log, s.db.summaries)
    && forall w <- s.workers :: s.workers[w].phase.InTx? ==>
         SnapOk(m, s.log, s.db.summaries, s.workers[w].phase.snap.summaries, s.workers[w].phase.since)
  }

  lemma KeysOfDb(m: Summaries, log: seq<Commit>, db: Summaries, u: UserId)
    requires Serialized(m, log, db)
    ensures u in db <==> u in m || Created(log, |log|, u)
  {
    FoldKeys(m, Serial(log), u);
    SameElements(log);
    if c :| c in Serial(log) && u in Creates(BodyOf(c)) {
      assert c in log;
      var i :| 0 <= i < |log| && log[i] == c;
    }
    if Created(log, |log|, u) {
      var i :| 0 <= i < |log| && u in Creates(BodyOf(log[i]));
      assert log[i] in log;
    }
  }

  /** A commit that the database lets through: what it wrote has not been written since. */
  ghost predicate Lawful(m: Summaries, log: seq<Commit>, db: Summaries, snap: Summaries, since: nat, c: Commit) {
    && Serialized(m, log, db) && SnapOk(m, log, db, snap, since)
    && c.at == |log| && c.writes == Writes(BodyOf(c), snap) && c.missed == Missed(BodyOf(c), snap, db)
    && Untouched(log, since, c.writes)
  }

  lemma LawfulAgrees(m: Summaries, log: seq<Commit>, db: Summaries, snap: Summaries, since: nat, c: Commit)
    requires Lawful(m, log, db, snap, since, c)
    ensures snap.Keys <= db.Keys && AgreeOn(db, snap, c.writes)
    ensures !BodyOf(c).Reversal? ==> c.missed == {}
  {
    forall u | u in snap ensures u in db {
      KeysOfDb(m, log, db, u);
      if Created(log, since, u) {
        var i :| 0 <= i < since && u in Creates(BodyOf(log[i]));
        assert Created(log, |log|, u);
      }
    }
    forall u | u in c.writes ensures SameAt(db, snap, u) {
      assert Untouched(log, since, {u});
    }
    ApplyFrame(db, snap, BodyOf(c));
  }

  /** Whoever was missed was created by some transaction of the order. */
  lemma MissedHasPlace(m: Summaries, log: seq<Commit>, db: Summaries, snap: Summaries, since: nat, c: Commit)
    requires Lawful(m, log, db, snap, since, c) && c.missed != {}
    ensures Place(Serial(log), c) < |Serial(log)|
  {
    var u :| u in c.missed;
    KeysOfDb(m, log, db, u);
    var i :| 0 <= i < |log| && u in Creates(BodyOf(log[i]));
    SameElements(log);
    assert log[i] in Serial(log);
    var j :| 0 <= j < |Serial(log)| && Serial(log)[j] == log[i];
    assert CreatesMissed(Serial(log)[j], c);
  }

  /** Everything from that transaction on committed after the snapshot, so it wrote elsewhere. */
  lemma LaterWritesElsewhere(m: Summaries, log: seq<Commit>, db: Summaries, snap: Summaries, since: nat, c: Commit)
    requires Lawful(m, log, db, snap, since, c) && Place(Serial(log), c) < |Serial(log)|
    ensures forall e <- Serial(log)[Place(Serial(log), c)..] :: e.at >= since && e.writes !! c.writes
  {
    var order, p := Serial(log), Place(Serial(log), c);
    SameElements(log);
    var u :| u in c.missed * Creates(BodyOf(order[p]));
    assert order[p] in log;
    assert order[p].at >= since by {
      var i :| 0 <= i < |log| && log[i] == order[p];
      if i < since { assert Created(log, since, u); }
    }
    forall e | e in order[p..] ensures e.at >= since && e.writes !! c.writes {
      var j :| p <= j < |order| && order[j] == e;
      assert e in log;
      var i :| 0 <= i < |log| && log[i] == e;
      assert log[i].at == i;
    }
  }

  /** Before that transaction the read model knows exactly the users of its footprint that the
      snapshot knows, and has them as the snapshot has them. */
  lemma PlaceSeesSnapshot(m: Summaries, log: seq<Commit>, db: Summaries, snap: Summaries, since: nat, c: Commit)
    requires Lawful(m, log, db, snap, since, c) && Place(Serial(log), c) < |Serial(log)|
    ensures var before := Fold(m, Bodies(Serial(log)[..Place(Serial(log), c)]));
            forall u <- Footprint(BodyOf(c)) :: u in before <==> u in snap
  {
    var order, p := Serial(log), Place(Serial(log), c);
    LaterWritesElsewhere(m, log, db, snap, since, c);
    LawfulAgrees(m, log, db, snap, since, c);
    SameElements(log);
    forall u | u in Footprint(BodyOf(c)) ensures u in Fold(m, Bodies(order[..p])) <==> u in snap {
      FoldKeys(m, order[..p], u);
      if u in snap && u !in m {
        CreatedBefore(log, order, p, since, u);
      }
      if e :| e in order[..p] && u in Creates(BodyOf(e)) {
        CreatedIsKnown(m, log, db, snap, c, e, u);
      }
    }
  }

  /** What was created before the snapshot was created ahead of everything that committed later. */
  lemma CreatedBefore(log: seq<Commit>, order: seq<Commit>, p: nat, since: nat, u: UserId)
    requires Numbered(log) && since <= |log| && p <= |order| && Created(log, since, u)
    requires forall c :: c in order <==> c in log
    requires forall e <- order[p..] :: e.at >= since
    ensures exists e :: e in order[..p] && u in Creates(BodyOf(e))
  {
    var i :| 0 <= i < since && i < |log| && u in Creates(BodyOf(log[i]));
    assert log[i] in order;
    assert order == order[..p] + order[p..];
    assert log[i].at == i;
    assert log[i] !in order[p..];
  }

  lemma CreatedIsKnown(m: Summaries, log: seq<Commit>, db: Summaries, snap: Summaries, c: Commit, e: Commit, u: UserId)
    requires Serialized(m, log, db) && c.missed == Missed(BodyOf(c), snap, db)
    requires e in Serial(log)[..Place(Serial(log), c)] && u in Creates(BodyOf(e)) && u in Footprint(BodyOf(c))
    ensures u in snap
  {
    var order, p := Serial(log), Place(Serial(log), c);
    var i :| 0 <= i < p && order[i] == e;
    assert e in order && !CreatesMissed(order[i], c);
    FoldKeys(m, order, u);
  }

  // ---- A commit takes its place ----

  lemma LawfulIsReversal(m: Summaries, log: seq<Commit>, db: Summaries, snap: Summaries, since: nat, c: Commit)
    requires Lawful(m, log, db, snap, since, c) && Place(Serial(log), c) < |Serial(log)|
    ensures BodyOf(c).Reversal?
  {
    LawfulAgrees(m, log, db, snap, since, c);
    assert c.missed != {};
  }

  /** At its place a reversal sees and writes what it saw and wrote in its snapshot. */
  lemma AtItsPlace(m: Summaries, log: seq<Commit>, db: Summaries, snap: Summaries, since: nat, c: Commit)
    requires Lawful(m, log, db, snap, since, c) && Place(Serial(log), c) < |Serial(log)|
    ensures var order, p := Serial(log), Place(Serial(log), c);
            var before := Fold(m, Bodies(order[..p]));
            && c.writes == Writes(BodyOf(c), before) && WritesMatch(before, order[p..])
            && Fold(before, Bodies(order[p..])) == db
            && ApartIn(before, Apply(before, BodyOf(c)), c.writes)
  {
    var order, p := Serial(log), Place(Serial(log), c);
    var before := Fold(m, Bodies(order[..p]));
    LawfulIsReversal(m, log, db, snap, since, c);
    PlaceSeesSnapshot(m, log, db, snap, since, c);
    PrefixMatches(m, order, p);
    ReversalStaysInside(before, BodyOf(c));
  }

  lemma ReversalStaysInside(m: Summaries, b: Body)
    requires b.Reversal?
    ensures ApartIn(m, Apply(m, b), Writes(b, m))
  {
    forall u ensures u in Apply(m, b) <==> u in m {
      ApplyKeys(m, b, u);
    }
    forall u | u !in Writes(b, m) ensures SameAt(m, Apply(m, b), u) {
      ApplyLeaves(m, b, u);
    }
  }

  /** What it installs is what the transactions behind its place make of its effect there. */
  lemma EffectIsInstalled(before: Summaries, db: Summaries, snap: Summaries, c: Commit, rest: seq<Commit>)
    requires ApartIn(before, Apply(before, BodyOf(c)), c.writes) && WritesMatch(before, rest)
    requires forall e <- rest :: e.writes !! c.writes
    requires Fold(before, Bodies(rest)) == db && AgreeOn(db, snap, c.writes)
    requires BodyOf(c).Reversal? && c.writes == Writes(BodyOf(c), snap) == Writes(BodyOf(c), before)
    ensures Fold(Apply(before, BodyOf(c)), Bodies(rest)) == Overwrite(db, Apply(snap, BodyOf(c)), c.writes)
    ensures WritesMatch(Apply(before, BodyOf(c)), rest)
  {
    var b := BodyOf(c);
    FoldApart(before, Apply(before, b), rest, c.writes);
    forall u | u in Footprint(b) ensures SameAt(before, snap, u) {
      if u in c.writes { assert SameAt(db, before, u) && SameAt(db, snap, u); }
    }
    var l, r := Fold(Apply(before, b), Bodies(rest)), Overwrite(db, Apply(snap, b), c.writes);
    forall u ensures SameAt(l, r, u) {
      if u in c.writes {
        ApplyPoint(before, snap, b, u);
        ApplyKeys(snap, b, u);
      }
    }
    SameEverywhere(l, r);
  }

  /** Inserting one transaction into an order, as the fold sees it. */
  lemma FoldInserted(m: Summaries, xs: seq<Commit>, c: Commit, ys: seq<Commit>)
    requires var before := Fold(m, Bodies(xs));
             WritesMatch(m, xs) && c.writes == Writes(BodyOf(c), before) && WritesMatch(Apply(before, BodyOf(c)), ys)
    ensures WritesMatch(m, xs + ([c] + ys))
    ensures Fold(m, Bodies(xs + ([c] + ys))) == Fold(Apply(Fold(m, Bodies(xs)), BodyOf(c)), Bodies(ys))
  {
    var before := Fold(m, Bodies(xs));
    FoldOne(before, c);
    FoldAppend(before, [c], ys);
    FoldAppend(m, xs, [c] + ys);
    WritesMatchAppend(m, xs, [c] + ys);
    assert ([c] + ys)[1..] == ys;
  }

  lemma PlacedEarlier(m: Summaries, log: seq<Commit>, db: Summaries, snap: Summaries, since: nat, c: Commit)
    requires Lawful(m, log, db, snap, since, c) && Place(Serial(log), c) < |Serial(log)|
    ensures WritesMatch(m, Placed(Serial(log), c))
    ensures Fold(m, Bodies(Placed(Serial(log), c))) == Overwrite(db, Apply(snap, BodyOf(c)), c.writes)
  {
    var order, p := Serial(log), Place(Serial(log), c);
    var before := Fold(m, Bodies(order[..p]));
    AtItsPlace(m, log, db, snap, since, c);
    LawfulAgrees(m, log, db, snap, since, c);
    LawfulIsReversal(m, log, db, snap, since, c);
    LaterWritesElsewhere(m, log, db, snap, since, c);
    EffectIsInstalled(before, db, snap, c, order[p..]);
    PrefixMatches(m, order, p);
    FoldInserted(m, order[..p], c, order[p..]);
  }

  lemma PrefixMatches(m: Summaries, order: seq<Commit>, p: nat)
    requires p <= |order| && WritesMatch(m, order)
    ensures WritesMatch(m, order[..p]) && WritesMatch(Fold(m, Bodies(order[..p])), order[p..])
    ensures Fold(Fold(m, Bodies(order[..p])), Bodies(order[p..])) == Fold(m, Bodies(order))
  {
    assert order == order[..p] + order[p..];
    WritesMatchAppend(m, order[..p], order[p..]);
    FoldAppend(m, order[..p], order[p..]);
  }

  lemma PlacedLast(m: Summaries, log: seq<Commit>, db: Summaries, snap: Summaries, since: nat, c: Commit)
    requires Lawful(m, log, db, snap, since, c) && Place(Serial(log), c) == |Serial(log)|
    ensures WritesMatch(m, Placed(Serial(log), c))
    ensures Fold(m, Bodies(Placed(Serial(log), c))) == Overwrite(db, Apply(snap, BodyOf(c)), c.writes)
  {
    var order := Serial(log);
    if c.missed != {} { MissedHasPlace(m, log, db, snap, since, c); }
    LawfulAgrees(m, log, db, snap, since, c);
    ApplyFrame(db, snap, BodyOf(c));
    assert order[..|order|] == order && order[|order|..] == [];
    assert c.writes == Writes(BodyOf(c), db);
    FoldInserted(m, order, c, []);
  }

  lemma CommitKeepsSerialized(m: Summaries, log: seq<Commit>, db: Summaries, snap: Summaries, since: nat, c: Commit)
    requires Lawful(m, log, db, snap, since, c)
    ensures Serialized(m, log + [c], Overwrite(db, Apply(snap, BodyOf(c)), c.writes))
  {
    var order := Serial(log);
    assert (log + [c])[..|log|] == log;
    SameElements(log);
    forall e | e in order ensures e.at < c.at {
      var i :| 0 <= i < |log| && log[i] == e;
    }
    if Place(order, c) < |order| {
      LawfulIsReversal(m, log, db, snap, since, c);
      PlacedEarlier(m, log, db, snap, since, c);
    } else {
      PlacedLast(m, log, db, snap, since, c);
    }
    PlacedInOrder(order, c);
  }

  /** Another worker's commit changes what it wrote only, and leaves the log's beginning alone. */
  lemma CommitKeepsSnapshot(m: Summaries, log: seq<Commit>, db: Summaries, db': Summaries, snap: Summaries, since: nat,
                            c: Commit)
    requires SnapOk(m, log, db, snap, since)
    requires forall u :: u !in c.writes ==> SameAt(db, db', u)
    ensures SnapOk(m, log + [c], db', snap, since)
  {
    forall u ensures Created(log + [c], since, u) <==> Created(log, since, u) {
      if Created(log, since, u) {
        var i :| 0 <= i < since && i < |log| && u in Creates(BodyOf(log[i]));
        assert (log + [c])[i] == log[i];
      }
    }
    forall u | Untouched(log + [c], since, {u}) ensures SameAt(snap, db', u) {
      assert (log + [c])[|log|] == c;
      assert forall i :: since <= i < |log| ==> (log + [c])[i] == log[i];
      assert Untouched(log, since, {u});
    }
  }

  lemma BeginKeepsInv(m: Summaries, s: State, w: WorkerId)
    requires SerialInv(m, s)
    ensures SerialInv(m, Step(s, Begin(w)))
  {
    var t := Step(s, Begin(w));
    forall u ensures u in s.db.summaries <==> u in m || Created(s.log, |s.log|, u) {
      KeysOfDb(m, s.log, s.db.summaries, u);
    }
    assert SnapOk(m, s.log, s.db.summaries, s.db.summaries, |s.log|);
  }

  lemma CommitKeepsInv(m: Summaries, s: State, w: WorkerId, k: Key)
    requires SerialInv(m, s)
    ensures SerialInv(m, Step(s, CommitTx(w, k)))
  {
    var t := Step(s, CommitTx(w, k));
    if t != s {
      var p := s.workers[w].phase;
      var c := t.log[|s.log|];
      CommitKeepsSerialized(m, s.log, s.db.summaries, p.snap.summaries, p.since, c);
      forall u | u !in c.writes ensures SameAt(s.db.summaries, t.db.summaries, u) {}
      forall v | v in t.workers && t.workers[v].phase.InTx?
        ensures SnapOk(m, t.log, t.db.summaries, t.workers[v].phase.snap.summaries, t.workers[v].phase.since)
      {
        var q := s.workers[v].phase;
        CommitKeepsSnapshot(m, s.log, s.db.summaries, t.db.summaries, q.snap.summaries, q.since, c);
      }
    }
  }

  lemma StepKeepsInv(m: Summaries, s: State, a: Action)
    requires SerialInv(m, s)
    ensures SerialInv(m, Step(s, a))
  {
    if a.Begin? {
      BeginKeepsInv(m, s, a.w);
    } else if a.CommitTx? {
      CommitKeepsInv(m, s, a.w, a.k);
    } else {
      OtherStepKeepsInv(m, s, a);
    }
  }

  lemma OtherStepKeepsInv(m: Summaries, s: State, a: Action)
    requires SerialInv(m, s) && !a.Begin? && !a.CommitTx?
    ensures SerialInv(m, Step(s, a))
  {
    var t := Step(s, a);
    assert t.log == s.log && t.db.summaries == s.db.summaries;
    forall v | v in t.workers && t.workers[v].phase.InTx? ensures v in s.workers && t.workers[v] == s.workers[v] {}
  }

  lemma {:induction false} RunKeepsInv(m: Summaries, s: State, acts: seq<Action>)
    requires SerialInv(m, s)
    ensures SerialInv(m, Exec(s, acts))
    decreases |acts|
  {
    if acts != [] {
      StepKeepsInv(m, s, acts[0]);
      RunKeepsInv(m, Step(s, acts[0]), acts[1..]);
    }
  }

  // ---- Exactly once ----

  predicate SingleTopic(acts: seq<Action>, group: Group, topic: Topic) {
    forall a <- acts :: a.Deliver? && a.d.group == group ==> a.d.topic == topic
  }

  /** Every committed transaction came from a delivered message. */
  predicate LogFrom(s: State, acts: seq<Action>) {
    && (forall c <- s.log :: exists a <- acts :: a.Deliver? && a.d == c.d)
    && (forall w <- s.workers :: exists a <- acts :: a.Deliver? && a.d == s.workers[w].d)
  }

  lemma {:induction false} RunKeepsLogFrom(s: State, acts: seq<Action>, all: seq<Action>)
    requires LogFrom(s, all)
    requires forall a <- acts :: a in all
    ensures LogFrom(Exec(s, acts), all)
    decreases |acts|
  {
    if acts != [] {
      assert acts[0] in acts;
      RunKeepsLogFrom(Step(s, acts[0]), acts[1..], all);
    }
  }

  /** Exactly-once: for every interleaving the read model is the fold of the handlers over the
      committed events, each taken once, in commit order except that a reversal may stand earlier;
      within a group that reads one topic no event id is folded twice; and the net of the totals is
      the inflow of those events and nothing else. */
  lemma ExactlyOnceRefinement(m: Summaries, acts: seq<Action>, route: Routing, group: Group, topic: Topic)
    requires DeliveriesRouted(acts, route)
    requires SingleTopic(acts, group, topic)
    ensures var s := Exec(Init(m), acts);
            && multiset(Serial(s.log)) == multiset(s.log) && InOrder(Serial(s.log))
            && s.db.summaries == Fold(m, Bodies(Serial(s.log)))
            && (forall i, j :: 0 <= i < j < |s.log| && s.log[i].d.group == group && s.log[j].d.group == group ==>
                  s.log[i].d.event.id != s.log[j].d.event.id)
            && Net(s.db.summaries) == Net(m) + Inflows(m, Bodies(Serial(s.log)))
  {
    ClaimSafety(m, acts, route);
    RunKeepsInv(m, Init(m), acts);
    RunKeepsLogFrom(Init(m), acts, acts);
    var s := Exec(Init(m), acts);
    SerialIsPermutation(s.log);
    RunConservesNet(m, Bodies(Serial(s.log)));
    forall i, j | 0 <= i < j < |s.log| && s.log[i].d.group == group && s.log[j].d.group == group
      ensures s.log[i].d.event.id != s.log[j].d.event.id
    {
      assert s.log[i] in s.log && s.log[j] in s.log;
      assert s.log[i].d.topic == topic && s.log[j].d.topic == topic;
      assert KeyOf(s.log[i].d) != KeyOf(s.log[j].d);
    }
  }

  /** The summary invariant survives every interleaving as well. */
  lemma EveryRunKeepsSums(m: Summaries, acts: seq<Action>)
    requires AllBalanced(m)
    requires forall a <- acts :: a.Deliver? ==> Ordinary(a.d.event.body)
    ensures AllBalanced(Exec(Init(m), acts).db.summaries)
  {
    RunKeepsInv(m, Init(m), acts);
    RunKeepsLogFrom(Init(m), acts, acts);
    var s := Exec(Init(m), acts);
    SameElements(s.log);
    forall b | b in Bodies(Serial(s.log)) ensures Ordinary(b) {
      var i :| 0 <= i < |Serial(s.log)| && Bodies(Serial(s.log))[i] == b;
      assert Serial(s.log)[i] in s.log;
    }
    RunKeepsSums(m, Bodies(Serial(s.log)));
  }

  // ---- The commit order ----

  /** The read model is the fold in the order of the commits. */
  predicate IsFold(m: Summaries, s: State) { s.db.summaries == Fold(m, Bodies(s.log)) }

  /** One commit extends that fold exactly if it missed nobody to whom an amount is due. */
  lemma CommitOrderStep(m: Summaries, s: State, w: WorkerId, k: Key)
    requires SerialInv(m, s) && IsFold(m, s) && Step(s, CommitTx(w, k)) != s
    ensures var t := Step(s, CommitTx(w, k));
            var c := t.log[|t.log| - 1];
            t.log == s.log + [c] && (IsFold(m, t) <==> Harmless(BodyOf(c), c.missed))
  {
    var t := Step(s, CommitTx(w, k));
    var p := s.workers[w].phase;
    var c := t.log[|s.log|];
    LawfulAgrees(m, s.log, s.db.summaries, p.snap.summaries, p.since, c);
    ApplyFrame(s.db.summaries, p.snap.summaries, BodyOf(c));
    FoldAppend(m, s.log, [c]);
    FoldOne(s.db.summaries, c);
  }

  ghost predicate FoldThroughout(m: Summaries, s: State, acts: seq<Action>)
    decreases |acts|
  {
    IsFold(m, s) && (acts != [] ==> FoldThroughout(m, Step(s, acts[0]), acts[1..]))
  }

  predicate AllHarmless(cs: seq<Commit>) { forall c <- cs :: Harmless(BodyOf(c), c.missed) }

  lemma {:induction false} LogGrows(s: State, acts: seq<Action>)
    ensures s.log <= Exec(s, acts).log
    decreases |acts|
  {
    if acts != [] {
      assert s.log <= Step(s, acts[0]).log;
      LogGrows(Step(s, acts[0]), acts[1..]);
    }
  }

  lemma OneMoreHarmless(log: seq<Commit>, c: Commit, end: seq<Commit>)
    requires log + [c] <= end
    ensures AllHarmless(end[|log|..]) <==> Harmless(BodyOf(c), c.missed) && AllHarmless(end[|log| + 1..])
  {
    assert end[|log|..] == [c] + end[|log| + 1..];
    assert forall e :: e in end[|log|..] <==> e == c || e in end[|log| + 1..];
  }

  /** The read model is the fold in commit order at every moment of a run if and only if no reversal
      of the run committed past a summary, created since its snapshot, to which it owes an amount. */
  lemma {:induction false} CommitOrderIff(m: Summaries, s: State, acts: seq<Action>)
    requires SerialInv(m, s) && IsFold(m, s)
    ensures |s.log| <= |Exec(s, acts).log|
    ensures FoldThroughout(m, s, acts) <==> AllHarmless(Exec(s, acts).log[|s.log|..])
    decreases |acts|
  {
    LogGrows(s, acts);
    if acts != [] {
      var a, t := acts[0], Step(s, acts[0]);
      StepKeepsInv(m, s, a);
      LogGrows(t, acts[1..]);
      if a.CommitTx? && t != s {
        CommitOrderStep(m, s, a.w, a.k);
        OneMoreHarmless(s.log, t.log[|s.log|], Exec(t, acts[1..]).log);
      } else {
        OtherStepsCommitNothing(s, a);
      }
      if IsFold(m, t) { CommitOrderIff(m, t, acts[1..]); }
    }
  }

  lemma OtherStepsCommitNothing(s: State, a: Action)
    requires !a.CommitTx? || Step(s, a) == s
    ensures Step(s, a).log == s.log && Step(s, a).db.summaries == s.db.summaries
  {}

  /** A reversal opens its transaction, another transaction creates a summary, and both commit. */
  function RacingReversal(c: Delivery, d: Delivery): seq<Action> {
    [Deliver(0, c), Insert(0, 0), Begin(0), Deliver(1, d), Insert(1, 0), Begin(1)]
    + [CommitTx(1, KeyOf(d)), CommitTx(0, KeyOf(c))]
  }

  /** A transaction that has claimed its event is open on the read model m. */
  predicate Open(t: State, w: WorkerId, d: Delivery, m: Summaries) {
    && w in t.workers && t.workers[w].d == d && t.workers[w].phase.InTx?
    && var p := t.workers[w].phase;
       && p.version == 0 && p.since == 0 && p.snap.summaries == m
       && KeyOf(d) in p.snap.claims && KeyOf(d) in t.db.claims
       && p.snap.claims[KeyOf(d)] == t.db.claims[KeyOf(d)] == FreshClaim(d.retryCount, 0)
  }

  lemma RacingOpens(m: Summaries, c: Delivery, d: Delivery)
    requires KeyOf(c) != KeyOf(d)
    ensures var t := Exec(Init(m), RacingReversal(c, d)[..6]);
            t.db.summaries == m && t.log == [] && Open(t, 0, c, m) && Open(t, 1, d, m)
  {
    var s := Init(m);
    assert RacingReversal(c, d)[..6] == [Deliver(0, c), Insert(0, 0), Begin(0), Deliver(1, d), Insert(1, 0), Begin(1)];
    R.Exec6(s, Deliver(0, c), Insert(0, 0), Begin(0), Deliver(1, d), Insert(1, 0), Begin(1));
    var t3 := Step(Step(Step(s, Deliver(0, c)), Insert(0, 0)), Begin(0));
    assert t3.workers == map[0 := Worker(c, InTx(0, 1, Db(map[KeyOf(c) := FreshClaim(c.retryCount, 0)], m), 0))];
    var t5 := Step(Step(t3, Deliver(1, d)), Insert(1, 0));
    assert t5.workers[1] == Worker(d, Granted(0, 1));
  }

  /** A transaction that creates summaries is never late. */
  lemma CreationIsNeverLate(m: Summaries, s: State, w: WorkerId, k: Key)
    requires SerialInv(m, s) && IsFold(m, s) && Step(s, CommitTx(w, k)) != s
    requires !s.workers[w].d.event.body.Reversal?
    ensures IsFold(m, Step(s, CommitTx(w, k)))
    ensures forall u <- Creates(s.workers[w].d.event.body) :: u in Step(s, CommitTx(w, k)).db.summaries
  {
    var t := Step(s, CommitTx(w, k));
    CommitOrderStep(m, s, w, k);
    var c := t.log[|s.log|];
    forall u | u in Creates(BodyOf(c)) ensures u in t.db.summaries {
      ApplyKeys(s.workers[w].phase.snap.summaries, BodyOf(c), u);
    }
  }

  lemma CreatorCommits(m: Summaries, s: State, c: Delivery, d: Delivery)
    requires KeyOf(c) != KeyOf(d) && Open(s, 0, c, m) && Open(s, 1, d, m) && s.log == []
    ensures var t := Step(s, CommitTx(1, KeyOf(d)));
            t != s && Open(t, 0, c, m) && |t.log| == 1 && t.log[0].writes == Writes(d.event.body, m)
  {}

  lemma ReversalCommits(m: Summaries, t: State, c: Delivery)
    requires Open(t, 0, c, m) && |t.log| == 1 && t.log[0].writes !! Writes(c.event.body, m)
    ensures var u := Step(t, CommitTx(0, KeyOf(c)));
            && u != t && |u.log| == 2 && u.log[1].d == c
            && u.log[1].missed == Missed(c.event.body, m, t.db.summaries)
  {
    assert Untouched(t.log, 0, Writes(c.event.body, m));
  }

  lemma RacingReversalEnds(m: Summaries, c: Delivery, d: Delivery)
    ensures Exec(Init(m), RacingReversal(c, d)) ==
              Step(Step(Exec(Init(m), RacingReversal(c, d)[..6]), CommitTx(1, KeyOf(d))), CommitTx(0, KeyOf(c)))
  {
    var run := RacingReversal(c, d);
    var s := Exec(Init(m), run[..6]);
    assert run == run[..6] + run[6..];
    R.ExecAppend(Init(m), run[..6], run[6..]);
    assert run[6..] == [CommitTx(1, KeyOf(d))] + ([CommitTx(0, KeyOf(c))] + []);
    R.ExecCons(s, CommitTx(1, KeyOf(d)), [CommitTx(0, KeyOf(c))] + []);
    R.ExecCons(Step(s, CommitTx(1, KeyOf(d))), CommitTx(0, KeyOf(c)), []);
  }

  /** In such a run, where the reversal owes an amount to the new summary, the read model is not the
      fold in commit order: the condition of CommitOrderIff is not empty. */
  lemma RacingReversalIsLate(m: Summaries, c: Delivery, d: Delivery)
    requires KeyOf(c) != KeyOf(d)
    requires c.event.body.Reversal? && c.event.body.reversalAmount != 0
    requires c.event.body.senderId in Creates(d.event.body) && c.event.body.senderId !in m
    requires Writes(c.event.body, m) !! Writes(d.event.body, m)
    ensures var t := Exec(Init(m), RacingReversal(c, d)); |t.log| == 2 && !IsFold(m, t)
  {
    var s := Exec(Init(m), RacingReversal(c, d)[..6]);
    RacingOpens(m, c, d);
    RunKeepsInv(m, Init(m), RacingReversal(c, d)[..6]);
    var t := Step(s, CommitTx(1, KeyOf(d)));
    CreatorCommits(m, s, c, d);
    CreationIsNeverLate(m, s, 1, KeyOf(d));
    CommitKeepsInv(m, s, 1, KeyOf(d));
    ReversalCommits(m, t, c);
    CommitOrderStep(m, t, 0, KeyOf(c));
    RacingReversalEnds(m, c, d);
  }
}
