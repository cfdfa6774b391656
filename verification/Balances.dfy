/** What the balances of the read model are after a run, read off the payloads of its events
    (transfer.projection.ts, funding.projection.ts, reversalProcessor.evt.ts). */
module Balances {
  import opened Projections
  import C = Claims
  import E = ExactlyOnce

  /** The events that a user's summary has seen: all of them if it was known at the start, or from the one
      on that created it. */
  function Seen(known: bool, bs: seq<Body>, u: UserId): seq<Body> {
    if known || bs == [] || Upserts(bs[0], u) then bs else Seen(false, bs[1..], u)
  }

  function Shifts(bs: seq<Body>, u: UserId): int {
    if bs == [] then 0 else Shift(bs[0], u) + Shifts(bs[1..], u)
  }

  function CreditsDue(bs: seq<Body>, u: UserId): int {
    if bs == [] then 0 else CreditDue(bs[0], u) + CreditsDue(bs[1..], u)
  }

  function DebitsDue(bs: seq<Body>, u: UserId): int {
    if bs == [] then 0 else DebitDue(bs[0], u) + DebitsDue(bs[1..], u)
  }

  predicate NeverNamed(bs: seq<Body>, u: UserId, f: Field) { forall b <- bs :: Named(b, u, f).None? }

  /** The i-th event is the last one that states a balance for the field. */
  predicate NamedLast(bs: seq<Body>, i: nat, u: UserId, f: Field) {
    i < |bs| && Named(bs[i], u, f).Some? && NeverNamed(bs[i + 1..], u, f)
  }

  /** Only the main balance is shifted by reversals. */
  function ShiftsOf(bs: seq<Body>, u: UserId, f: Field): int { if f.Main? then Shifts(bs, u) else 0 }

  /** A run gives a summary to exactly the users that one of its events upserts, and a user's totals grow
      by what the events due to the summary since then say. */
  lemma {:induction false} RunTotals(m: Summaries, bs: seq<Body>, u: UserId)
    ensures u in Fold(m, bs) <==> u in m || exists b <- bs :: Upserts(b, u)
    ensures u in Fold(m, bs) ==>
              && Fold(m, bs)[u].credit == Existing(m, u).credit + CreditsDue(Seen(u in m, bs, u), u)
              && Fold(m, bs)[u].debit == Existing(m, u).debit + DebitsDue(Seen(u in m, bs, u), u)
    decreases |bs|
  {
    if bs != [] {
      var n := Apply(m, bs[0]);
      ApplyFollowsPayload(m, bs[0]);
      assert UserFollows(m, n, bs[0], u);
      RunTotals(n, bs[1..], u);
      assert forall b :: b in bs <==> b == bs[0] || b in bs[1..];
    }
  }

  /** A balance that no event states is what it was, plus the reversals its summary has seen. */
  lemma {:induction false} UnnamedBalance(m: Summaries, bs: seq<Body>, u: UserId, f: Field)
    requires NeverNamed(bs, u, f) && u in Fold(m, bs)
    ensures ValueOf(Fold(m, bs)[u], f) == ValueOf(Existing(m, u), f) + ShiftsOf(Seen(u in m, bs, u), u, f)
    decreases |bs|
  {
    if bs != [] {
      var n := Apply(m, bs[0]);
      ApplyFollowsPayload(m, bs[0]);
      assert UserFollows(m, n, bs[0], u) && Named(bs[0], u, f).None?;
      assert u in n ==> FieldFollows(Existing(m, u), n[u], bs[0], u, f);
      UnnamedBalance(n, bs[1..], u, f);
    }
  }

  /** A balance is the one that the last event to state it stated, plus the reversals since. */
  lemma {:induction false} LastNamedBalance(m: Summaries, bs: seq<Body>, i: nat, u: UserId, f: Field)
    requires NamedLast(bs, i, u, f)
    ensures u in Fold(m, bs)
    ensures ValueOf(Fold(m, bs)[u], f) == Named(bs[i], u, f).value + ShiftsOf(bs[i + 1..], u, f)
    decreases |bs|
  {
    var n := Apply(m, bs[0]);
    if i > 0 {
      assert bs[1..][i - 1 + 1..] == bs[i + 1..];
      LastNamedBalance(n, bs[1..], i - 1, u, f);
    } else {
      ApplyFollowsPayload(m, bs[0]);
      assert UserFollows(m, n, bs[0], u);
      assert FieldFollows(Existing(m, u), n[u], bs[0], u, f);
      RunTotals(n, bs[1..], u);
      UnnamedBalance(n, bs[1..], u, f);
    }
  }

  /** In every interleaving of claims, takeovers and transactions, each balance of the read model is the
      one stated last in the serialization order, plus the reversals that stand behind it. */
  lemma EveryInterleavingKeepsBalances(m: Summaries, acts: seq<C.Action>, u: UserId, f: Field)
    ensures var s := C.Exec(C.Init(m), acts);
            var bs := E.Bodies(E.Serial(s.log));
            && (forall i: nat :: NamedLast(bs, i, u, f) ==>
                  && u in s.db.summaries
                  && ValueOf(s.db.summaries[u], f) == Named(bs[i], u, f).value + ShiftsOf(bs[i + 1..], u, f))
            && (NeverNamed(bs, u, f) && u in s.db.summaries ==>
                  ValueOf(s.db.summaries[u], f) == ValueOf(Existing(m, u), f) + ShiftsOf(Seen(u in m, bs, u), u, f))
  {
    E.RunKeepsInv(m, C.Init(m), acts);
    var s := C.Exec(C.Init(m), acts);
    var bs := E.Bodies(E.Serial(s.log));
    forall i: nat | NamedLast(bs, i, u, f)
      ensures u in Fold(m, bs) && ValueOf(Fold(m, bs)[u], f) == Named(bs[i], u, f).value + ShiftsOf(bs[i + 1..], u, f)
    {
      LastNamedBalance(m, bs, i, u, f);
    }
    if NeverNamed(bs, u, f) && u in s.db.summaries { UnnamedBalance(m, bs, u, f); }
  }
}
