/** Fee accruals, sweeps, waivers and refunds (fee.admin.service.ts), one operation after the other,
    with the failures that their several writes can meet. */
module Fees {
  import opened Collections
  import opened Sums

  type AccrualId = string
  type SweepId = nat
  type UserId = string
  type Currency = string

  datatype AccrualStatus = ACCRUED | SWEPT | WAIVED

  datatype Accrual = Accrual(amount: nat, currency: Currency, payer: UserId, status: AccrualStatus,
                             sweepId: Option<SweepId>)

  datatype SweepStatus = PENDING | COMPLETED | FAILED

  datatype Sweep = Sweep(totalAmount: int, currency: Currency, accrualCount: nat, status: SweepStatus)

  /** A wallet, and the ledger account beside it: the system's revenue, or a user's main account. */
  datatype Account = Revenue(currency: Currency) | Main(user: UserId, currency: Currency)

  type Accruals = map<AccrualId, Accrual>
  type Sweeps = map<SweepId, Sweep>
  type Wallets = map<Account, int>

  /** `refunds` is the history of the accruals refunded. */
  datatype Books = Books(accruals: Accruals, sweeps: Sweeps, wallets: Wallets, users: set<UserId>,
                         ledgers: set<Account>, refunds: seq<AccrualId>)

  datatype Error =
    | FeeAccrualNotFound | CannotWaive(status: AccrualStatus) | UserNotFound
    | RevenueLedgerNotFound | UserLedgerNotFound
    | RevenueWalletNotFound | InsufficientRevenue | UserWalletNotFound | NoAccrualsToSweep | StoreFailed

  datatype Result<T> = Ok(value: T) | Err(error: Error)

  // ---- Waive ----

  function WaiveError(accruals: Accruals, id: AccrualId): Option<Error> {
    if id !in accruals then Some(FeeAccrualNotFound)
    else if !accruals[id].status.ACCRUED? then Some(CannotWaive(accruals[id].status))
    else None
  }

  function AfterWaive(b: Books, id: AccrualId, saveFails: bool): Books {
    if WaiveError(b.accruals, id).Some? || saveFails then b
    else b.(accruals := b.accruals[id := b.accruals[id].(status := WAIVED)])
  }

  // ---- Waive and refund ----

  /** The checks of the transaction, in order. */
  function RefundError(b: Books, id: AccrualId): Option<Error> {
    if WaiveError(b.accruals, id).Some? then WaiveError(b.accruals, id)
    else
      var a := b.accruals[id];
      var revenue, main := Revenue(a.currency), Main(a.payer, a.currency);
      if a.payer !in b.users then Some(UserNotFound)
      else if revenue !in b.ledgers then Some(RevenueLedgerNotFound)
      else if main !in b.ledgers then Some(UserLedgerNotFound)
      else if revenue !in b.wallets then Some(RevenueWalletNotFound)
      else if b.wallets[revenue] < a.amount then Some(InsufficientRevenue)
      else if main !in b.wallets then Some(UserWalletNotFound)
      else None
  }

  function AfterRefund(b: Books, id: AccrualId, txFails: bool): Books {
    if RefundError(b, id).Some? || txFails then b
    else
      var a := b.accruals[id];
      var revenue, main := Revenue(a.currency), Main(a.payer, a.currency);
      b.(wallets := b.wallets[revenue := b.wallets[revenue] - a.amount][main := b.wallets[main] + a.amount],
         accruals := b.accruals[id := a.(status := WAIVED)],
         refunds := b.refunds + [id])
  }

  // ---- Sweep ----

  function Pending(accruals: Accruals, c: Currency): set<AccrualId> {
    set id | id in accruals && accruals[id].status.ACCRUED? && accruals[id].currency == c
  }

  /** How the writes of a sweep end: updateMany is not atomic, so its failure may leave some accruals
      swept; failSaved says whether the FAILED status of the catch block is stored. */
  datatype SweepOutcome =
    | AllStored | CreateFails | UpdateFails(applied: set<AccrualId>, failSaved: bool) | SaveFails(failSaved: bool)

  function MarkSwept(accruals: Accruals, ids: set<AccrualId>, sid: SweepId): Accruals {
    map id | id in accruals ::
      if id in ids then accruals[id].(status := SWEPT, sweepId := Some(sid)) else accruals[id]
  }

  ghost function Amounts(accruals: Accruals, ids: set<AccrualId>): map<AccrualId, int> {
    map id | id in ids && id in accruals :: accruals[id].amount
  }

  function StoredStatus(o: SweepOutcome): SweepStatus {
    match o
    case AllStored => COMPLETED
    case UpdateFails(_, failSaved) => if failSaved then FAILED else PENDING
    case SaveFails(failSaved) => if failSaved then FAILED else PENDING
    case CreateFails => PENDING
  }

  function SweptBy(pending: set<AccrualId>, o: SweepOutcome): set<AccrualId> {
    match o
    case UpdateFails(applied, _) => applied * pending
    case CreateFails => {}
    case _ => pending
  }

  ghost function AfterSweep(b: Books, c: Currency, sid: SweepId, o: SweepOutcome): Books {
    var pending := Pending(b.accruals, c);
    if pending == {} || o.CreateFails? then b
    else b.(accruals := MarkSwept(b.accruals, SweptBy(pending, o), sid),
            sweeps := b.sweeps[sid := Sweep(Sum(Amounts(b.accruals, pending)), c, |pending|, StoredStatus(o))])
  }

  // ---- Runs ----

  datatype Op =
    | Accrue(id: AccrualId, amount: nat, currency: Currency, payer: UserId)
    | Waive(id: AccrualId, saveFails: bool)
    | Refund(id: AccrualId, txFails: bool)
    | SweepAccruals(currency: Currency, sid: SweepId, outcome: SweepOutcome)

  /** accrualId is unique, and sweep ids are fresh. */
  ghost function Step(b: Books, o: Op): Books {
    match o
    case Accrue(id, amount, c, payer) =>
      if id in b.accruals then b else b.(accruals := b.accruals[id := Accrual(amount, c, payer, ACCRUED, None)])
    case Waive(id, saveFails) => AfterWaive(b, id, saveFails)
    case Refund(id, txFails) => AfterRefund(b, id, txFails)
    case SweepAccruals(c, sid, outcome) => if sid in b.sweeps then b else AfterSweep(b, c, sid, outcome)
  }

  ghost function Exec(b: Books, ops: seq<Op>): Books
    decreases |ops|
  {
    if ops == [] then b else Exec(Step(b, ops[0]), ops[1..])
  }

  // ---- The statistics ----

  ghost function InCurrency(accruals: Accruals, c: Currency): map<AccrualId, int> {
    map id | id in accruals && accruals[id].currency == c :: accruals[id].amount
  }

  ghost function WithStatus(accruals: Accruals, c: Currency, st: AccrualStatus): map<AccrualId, int> {
    map id | id in accruals && accruals[id].currency == c && accruals[id].status == st :: accruals[id].amount
  }

  datatype Stats = Stats(gross: int, unswept: int, swept: int, waived: int)

  ghost function StatsOf(accruals: Accruals, c: Currency): Stats {
    Stats(Sum(InCurrency(accruals, c)), Sum(WithStatus(accruals, c, ACCRUED)), Sum(WithStatus(accruals, c, SWEPT)),
          Sum(WithStatus(accruals, c, WAIVED)))
  }

  lemma {:induction false} SumSplit<K>(whole: map<K, int>, a: map<K, int>, b: map<K, int>)
    requires a.Keys !! b.Keys && whole == a + b
    ensures Sum(whole) == Sum(a) + Sum(b)
    decreases b.Keys
  {
    if b == map[] {
      assert whole == a;
    } else {
      var k :| k in b;
      SumRemove(whole, k);
      SumRemove(b, k);
      assert whole - {k} == a + (b - {k});
      SumSplit(whole - {k}, a, b - {k});
    }
  }

  lemma StatusesPartition(accruals: Accruals, c: Currency)
    ensures WithStatus(accruals, c, ACCRUED).Keys !! WithStatus(accruals, c, SWEPT).Keys
    ensures (WithStatus(accruals, c, ACCRUED) + WithStatus(accruals, c, SWEPT)).Keys
            !! WithStatus(accruals, c, WAIVED).Keys
    ensures InCurrency(accruals, c) ==
              (WithStatus(accruals, c, ACCRUED) + WithStatus(accruals, c, SWEPT)) + WithStatus(accruals, c, WAIVED)
  {}

  /** Every accrued amount is either waiting, swept or waived. */
  lemma GrossIsAccountedFor(accruals: Accruals, c: Currency)
    ensures var s := StatsOf(accruals, c); s.gross == s.unswept + s.swept + s.waived
  {
    var gross, unswept, swept, waived := InCurrency(accruals, c), WithStatus(accruals, c, ACCRUED),
      WithStatus(accruals, c, SWEPT), WithStatus(accruals, c, WAIVED);
    StatusesPartition(accruals, c);
    SumSplit(unswept + swept, unswept, swept);
    SumSplit(gross, unswept + swept, waived);
  }

  // ---- The sweep invariant ----

  ghost function Members(accruals: Accruals, sid: SweepId): map<AccrualId, int> {
    map id | id in accruals && accruals[id].sweepId == Some(sid) :: accruals[id].amount
  }

  /** An accrual names a sweep exactly when it is SWEPT, and then a COMPLETED one of its currency. */
  predicate AccrualBacked(a: Accrual, sweeps: Sweeps) {
    && (a.sweepId.Some? <==> a.status.SWEPT?)
    && (a.status.SWEPT? ==>
          && a.sweepId.value in sweeps && sweeps[a.sweepId.value].status.COMPLETED?
          && sweeps[a.sweepId.value].currency == a.currency)
  }

  /** A COMPLETED sweep's total and count are those of the accruals that name it. */
  ghost predicate SweepBacked(accruals: Accruals, sweeps: Sweeps, sid: SweepId)
    requires sid in sweeps
  {
    sweeps[sid].status.COMPLETED? ==>
      && sweeps[sid].totalAmount == Sum(Members(accruals, sid))
      && sweeps[sid].accrualCount == |Members(accruals, sid)|
  }

  predicate AccrualsBacked(b: Books) { forall id <- b.accruals :: AccrualBacked(b.accruals[id], b.sweeps) }

  ghost predicate Backed(b: Books) {
    && AccrualsBacked(b)
    && (forall sid <- b.sweeps :: SweepBacked(b.accruals, b.sweeps, sid))
  }

  lemma MembersOfOthers(accruals: Accruals, ids: set<AccrualId>, sid: SweepId, other: SweepId)
    requires forall id <- ids :: id in accruals && accruals[id].sweepId.None?
    requires other != sid
    ensures Members(MarkSwept(accruals, ids, sid), other) == Members(accruals, other)
  {}

  lemma MembersOfNew(accruals: Accruals, ids: set<AccrualId>, sid: SweepId)
    requires forall id <- ids :: id in accruals
    requires forall id <- accruals :: accruals[id].sweepId != Some(sid)
    ensures Members(MarkSwept(accruals, ids, sid), sid) == Amounts(accruals, ids)
    ensures |Members(MarkSwept(accruals, ids, sid), sid)| == |ids|
  {
    assert Members(MarkSwept(accruals, ids, sid), sid) == Amounts(accruals, ids);
    assert Amounts(accruals, ids).Keys == ids;
  }

  lemma PendingAreFree(b: Books, c: Currency, sid: SweepId)
    requires AccrualsBacked(b) && sid !in b.sweeps
    ensures forall id <- Pending(b.accruals, c) :: b.accruals[id].sweepId.None?
    ensures forall id <- b.accruals :: b.accruals[id].sweepId != Some(sid)
  {
    forall id | id in b.accruals
      ensures b.accruals[id].sweepId != Some(sid) && (b.accruals[id].status.ACCRUED? ==> b.accruals[id].sweepId.None?)
    {
      assert AccrualBacked(b.accruals[id], b.sweeps);
    }
  }

  lemma StoredSweepKeepsBacked(b: Books, c: Currency, sid: SweepId, o: SweepOutcome)
    requires Backed(b) && sid !in b.sweeps && Pending(b.accruals, c) != {} && !o.CreateFails?
    requires o.AllStored? || SweptBy(Pending(b.accruals, c), o) == {}
    ensures Backed(AfterSweep(b, c, sid, o))
  {
    var t, swept := AfterSweep(b, c, sid, o), SweptBy(Pending(b.accruals, c), o);
    PendingAreFree(b, c, sid);
    MembersOfNew(b.accruals, swept, sid);
    forall id | id in t.accruals ensures AccrualBacked(t.accruals[id], t.sweeps) {
      assert AccrualBacked(b.accruals[id], b.sweeps);
    }
    forall x | x in t.sweeps ensures SweepBacked(t.accruals, t.sweeps, x) {
      if x != sid {
        assert SweepBacked(b.accruals, b.sweeps, x);
        MembersOfOthers(b.accruals, swept, sid, x);
      }
    }
  }

  /** A sweep keeps the accounts backed exactly when all its writes are stored or no accrual was
      written at all: what the catch block stores does not matter. */
  lemma SweepKeepsBackedIff(b: Books, c: Currency, sid: SweepId, o: SweepOutcome)
    requires Backed(b) && sid !in b.sweeps
    ensures Backed(AfterSweep(b, c, sid, o)) <==> o.AllStored? || SweptBy(Pending(b.accruals, c), o) == {}
  {
    var t, swept := AfterSweep(b, c, sid, o), SweptBy(Pending(b.accruals, c), o);
    if Pending(b.accruals, c) != {} && !o.CreateFails? {
      if o.AllStored? || swept == {} {
        StoredSweepKeepsBacked(b, c, sid, o);
      } else {
        var id :| id in swept;
        assert !AccrualBacked(t.accruals[id], t.sweeps);
      }
    }
  }

  /** Writing one accrual that no sweep has leaves every sweep its members. */
  lemma FreeAccrualKeepsBacked(b: Books, id: AccrualId, a: Accrual)
    requires Backed(b) && a.sweepId.None? && !a.status.SWEPT?
    requires id in b.accruals ==> b.accruals[id].status.ACCRUED?
    ensures Backed(b.(accruals := b.accruals[id := a]))
  {
    var accruals := b.accruals[id := a];
    if id in b.accruals { assert AccrualBacked(b.accruals[id], b.sweeps); }
    forall sid | sid in b.sweeps ensures SweepBacked(accruals, b.sweeps, sid) {
      assert SweepBacked(b.accruals, b.sweeps, sid);
      assert Members(accruals, sid) == Members(b.accruals, sid);
    }
    forall x | x in accruals ensures AccrualBacked(accruals[x], b.sweeps) {
      if x != id { assert AccrualBacked(b.accruals[x], b.sweeps); }
    }
  }

  lemma OtherStepsKeepBacked(b: Books, o: Op)
    requires Backed(b) && !o.SweepAccruals?
    ensures Backed(Step(b, o))
  {
    if o.Accrue? {
      if o.id !in b.accruals { FreeAccrualKeepsBacked(b, o.id, Accrual(o.amount, o.currency, o.payer, ACCRUED, None)); }
    } else if o.id in b.accruals && b.accruals[o.id].status.ACCRUED? {
      assert AccrualBacked(b.accruals[o.id], b.sweeps);
      FreeAccrualKeepsBacked(b, o.id, b.accruals[o.id].(status := WAIVED));
    }
  }

  ghost predicate SweepsStore(ops: seq<Op>) {
    forall o <- ops :: o.SweepAccruals? ==> o.outcome.AllStored? || o.outcome.CreateFails?
  }

  /** In every run whose sweeps are stored, each SWEPT accrual belongs to one COMPLETED sweep, whose
      total and count are those of its accruals. */
  lemma {:induction false} RunsStayBacked(b: Books, ops: seq<Op>)
    requires Backed(b) && SweepsStore(ops)
    ensures Backed(Exec(b, ops))
    decreases |ops|
  {
    if ops != [] {
      var o := ops[0];
      assert o in ops;
      if o.SweepAccruals? {
        if o.sid !in b.sweeps { SweepKeepsBackedIff(b, o.currency, o.sid, o.outcome); }
      } else {
        OtherStepsKeepBacked(b, o);
      }
      assert forall p <- ops[1..] :: p in ops;
      RunsStayBacked(Step(b, o), ops[1..]);
    }
  }

  // ---- What the treasury received ----

  ghost function CompletedTotals(sweeps: Sweeps, c: Currency): map<SweepId, int> {
    map sid | sid in sweeps && sweeps[sid].status.COMPLETED? && sweeps[sid].currency == c :: sweeps[sid].totalAmount
  }

  /** The swept amount of the statistics is what the completed sweeps say they moved. */
  ghost predicate Reconciled(accruals: Accruals, sweeps: Sweeps, c: Currency) {
    StatsOf(accruals, c).swept == Sum(CompletedTotals(sweeps, c))
  }

  lemma SweptAmountGrows(accruals: Accruals, c: Currency, sid: SweepId)
    ensures var pending := Pending(accruals, c);
            Sum(WithStatus(MarkSwept(accruals, pending, sid), c, SWEPT))
            == Sum(WithStatus(accruals, c, SWEPT)) + Sum(Amounts(accruals, pending))
  {
    var pending := Pending(accruals, c);
    var before, added := WithStatus(accruals, c, SWEPT), Amounts(accruals, pending);
    assert WithStatus(MarkSwept(accruals, pending, sid), c, SWEPT) == before + added;
    SumSplit(before + added, before, added);
  }

  lemma CompletedTotalGrows(sweeps: Sweeps, c: Currency, sid: SweepId, sweep: Sweep)
    requires sid !in sweeps && sweep.status.COMPLETED? && sweep.currency == c
    ensures Sum(CompletedTotals(sweeps[sid := sweep], c)) == Sum(CompletedTotals(sweeps, c)) + sweep.totalAmount
  {
    assert CompletedTotals(sweeps[sid := sweep], c) == CompletedTotals(sweeps, c)[sid := sweep.totalAmount];
    SumUpdate(CompletedTotals(sweeps, c), sid, sweep.totalAmount);
  }

  lemma SweepOfCurrency(accruals: Accruals, sweeps: Sweeps, c: Currency, sid: SweepId, count: nat)
    requires Reconciled(accruals, sweeps, c) && sid !in sweeps
    ensures var added := Amounts(accruals, Pending(accruals, c));
            Reconciled(MarkSwept(accruals, Pending(accruals, c), sid),
                       sweeps[sid := Sweep(Sum(added), c, count, COMPLETED)], c)
  {
    SweptAmountGrows(accruals, c, sid);
    CompletedTotalGrows(sweeps, c, sid, Sweep(Sum(Amounts(accruals, Pending(accruals, c))), c, count, COMPLETED));
  }

  lemma SweepOfOtherCurrency(accruals: Accruals, sweeps: Sweeps, c: Currency, of: Currency, sid: SweepId, sweep: Sweep)
    requires Reconciled(accruals, sweeps, c) && c != of && sweep.currency == of && sid !in sweeps
    ensures Reconciled(MarkSwept(accruals, Pending(accruals, of), sid), sweeps[sid := sweep], c)
  {
    assert WithStatus(MarkSwept(accruals, Pending(accruals, of), sid), c, SWEPT) == WithStatus(accruals, c, SWEPT);
    assert CompletedTotals(sweeps[sid := sweep], c) == CompletedTotals(sweeps, c);
  }

  lemma WaiverSweepsNothing(accruals: Accruals, id: AccrualId, a: Accrual, c: Currency)
    requires !a.status.SWEPT? && (id in accruals ==> !accruals[id].status.SWEPT?)
    ensures WithStatus(accruals[id := a], c, SWEPT) == WithStatus(accruals, c, SWEPT)
  {}

  lemma StepKeepsReconciled(b: Books, o: Op, c: Currency)
    requires Reconciled(b.accruals, b.sweeps, c)
    requires o.SweepAccruals? ==> o.outcome.AllStored? || o.outcome.CreateFails?
    ensures Reconciled(Step(b, o).accruals, Step(b, o).sweeps, c)
  {
    var t := Step(b, o);
    if o.SweepAccruals? {
      if t != b {
        if o.currency == c {
          SweepOfCurrency(b.accruals, b.sweeps, c, o.sid, |Pending(b.accruals, c)|);
        } else {
          SweepOfOtherCurrency(b.accruals, b.sweeps, c, o.currency, o.sid, t.sweeps[o.sid]);
        }
      }
    } else if t != b {
      WaiverSweepsNothing(b.accruals, o.id, t.accruals[o.id], c);
    }
  }

  lemma {:induction false} RunsStayReconciled(b: Books, ops: seq<Op>, c: Currency)
    requires Reconciled(b.accruals, b.sweeps, c) && SweepsStore(ops)
    ensures Reconciled(Exec(b, ops).accruals, Exec(b, ops).sweeps, c)
    decreases |ops|
  {
    if ops != [] {
      assert ops[0] in ops;
      StepKeepsReconciled(b, ops[0], c);
      assert SweepsStore(ops[1..]) by { assert forall p <- ops[1..] :: p in ops; }
      RunsStayReconciled(Step(b, ops[0]), ops[1..], c);
    }
  }

  // ---- Final states, and the money ----

  lemma StepKeepsFinal(b: Books, o: Op, id: AccrualId)
    requires id in b.accruals && !b.accruals[id].status.ACCRUED?
    ensures id in Step(b, o).accruals && Step(b, o).accruals[id] == b.accruals[id]
  {}

  /** SWEPT and WAIVED are final, whatever fails. */
  lemma {:induction false} FinalStaysFinal(b: Books, ops: seq<Op>, id: AccrualId)
    requires id in b.accruals && !b.accruals[id].status.ACCRUED?
    ensures id in Exec(b, ops).accruals && Exec(b, ops).accruals[id] == b.accruals[id]
    decreases |ops|
  {
    if ops != [] {
      StepKeepsFinal(b, ops[0], id);
      FinalStaysFinal(Step(b, ops[0]), ops[1..], id);
    }
  }

  // ---- What becomes of an accrual ----

  /** The user, both ledgers and both wallets are there, and revenue covers the fee. */
  predicate Refundable(b: Books, a: Accrual) {
    && a.payer in b.users && Revenue(a.currency) in b.ledgers && Main(a.payer, a.currency) in b.ledgers
    && Revenue(a.currency) in b.wallets && Main(a.payer, a.currency) in b.wallets
    && b.wallets[Revenue(a.currency)] >= a.amount
  }

  predicate IsWaivedBy(b: Books, o: Op, id: AccrualId)
    requires id in b.accruals
  {
    || (o.Waive? && o.id == id && !o.saveFails)
    || (o.Refund? && o.id == id && !o.txFails && Refundable(b, b.accruals[id]))
  }

  predicate IsSweptBy(b: Books, o: Op, id: AccrualId)
    requires id in b.accruals
  {
    && o.SweepAccruals? && o.currency == b.accruals[id].currency && o.sid !in b.sweeps
    && !o.outcome.CreateFails? && (o.outcome.UpdateFails? ==> id in o.outcome.applied)
  }

  /** An accrual is what the first operation that decides about it made of it, and its amount, currency and
      payer are for good. */
  ghost function Verdict(b: Books, ops: seq<Op>, id: AccrualId): Accrual
    requires id in b.accruals
    decreases |ops|
  {
    var a := b.accruals[id];
    if ops == [] || !a.status.ACCRUED? then a
    else if IsWaivedBy(b, ops[0], id) then Accrual(a.amount, a.currency, a.payer, WAIVED, a.sweepId)
    else if IsSweptBy(b, ops[0], id) then Accrual(a.amount, a.currency, a.payer, SWEPT, Some(ops[0].sid))
    else (Undecided(b, ops[0], id); Verdict(Step(b, ops[0]), ops[1..], id))
  }

  lemma Undecided(b: Books, o: Op, id: AccrualId)
    requires id in b.accruals
    requires b.accruals[id].status.ACCRUED? ==> !IsWaivedBy(b, o, id) && !IsSweptBy(b, o, id)
    ensures id in Step(b, o).accruals && Step(b, o).accruals[id] == b.accruals[id]
  {}

  lemma Decided(b: Books, o: Op, id: AccrualId)
    requires id in b.accruals && b.accruals[id].status.ACCRUED?
    ensures var a := b.accruals[id];
            IsWaivedBy(b, o, id) ==>
              id in Step(b, o).accruals &&
              Step(b, o).accruals[id] == Accrual(a.amount, a.currency, a.payer, WAIVED, a.sweepId)
    ensures var a := b.accruals[id];
            IsSweptBy(b, o, id) ==>
              id in Step(b, o).accruals &&
              Step(b, o).accruals[id] == Accrual(a.amount, a.currency, a.payer, SWEPT, Some(o.sid))
  {
    if IsSweptBy(b, o, id) { assert id in Pending(b.accruals, o.currency); }
  }

  lemma {:induction false} VerdictStands(b: Books, ops: seq<Op>, id: AccrualId)
    requires id in b.accruals
    ensures id in Exec(b, ops).accruals && Exec(b, ops).accruals[id] == Verdict(b, ops, id)
    decreases |ops|
  {
    if !b.accruals[id].status.ACCRUED? {
      FinalStaysFinal(b, ops, id);
    } else if ops != [] {
      if IsWaivedBy(b, ops[0], id) || IsSweptBy(b, ops[0], id) {
        Decided(b, ops[0], id);
        FinalStaysFinal(Step(b, ops[0]), ops[1..], id);
      } else {
        Undecided(b, ops[0], id);
        VerdictStands(Step(b, ops[0]), ops[1..], id);
      }
    }
  }

  /** The refunds that go through, in order. */
  ghost function Refunded(b: Books, ops: seq<Op>): seq<AccrualId>
    decreases |ops|
  {
    if ops == [] then []
    else
      var o := ops[0];
      (if && o.Refund? && o.id in b.accruals && b.accruals[o.id].status.ACCRUED? && !o.txFails
          && Refundable(b, b.accruals[o.id]) then [o.id] else [])
      + Refunded(Step(b, o), ops[1..])
  }

  lemma {:induction false} RefundsAreKept(b: Books, ops: seq<Op>)
    ensures Exec(b, ops).refunds == b.refunds + Refunded(b, ops)
    decreases |ops|
  {
    if ops != [] {
      RefundsAreKept(Step(b, ops[0]), ops[1..]);
    }
  }

  /** The fees accrued in a currency by a run, each id once. */
  ghost function AccruedIn(b: Books, ops: seq<Op>, c: Currency): int
    decreases |ops|
  {
    if ops == [] then 0
    else
      var o := ops[0];
      (if o.Accrue? && o.id !in b.accruals && o.currency == c then o.amount else 0)
      + AccruedIn(Step(b, o), ops[1..], c)
  }

  predicate SameFees(a: Accruals, a': Accruals) {
    a.Keys == a'.Keys && forall id <- a :: a[id].amount == a'[id].amount && a[id].currency == a'[id].currency
  }

  lemma StepKeepsFees(b: Books, o: Op)
    requires o.Accrue? ==> o.id in b.accruals
    ensures SameFees(b.accruals, Step(b, o).accruals)
  {}

  lemma SameGross(a: Accruals, a': Accruals, c: Currency)
    requires SameFees(a, a')
    ensures InCurrency(a, c) == InCurrency(a', c)
  {}

  lemma AccrualAddsToGross(accruals: Accruals, id: AccrualId, a: Accrual, c: Currency)
    requires id !in accruals
    ensures Sum(InCurrency(accruals[id := a], c)) ==
              Sum(InCurrency(accruals, c)) + if a.currency == c then a.amount else 0
  {
    if a.currency == c {
      assert InCurrency(accruals[id := a], c) == InCurrency(accruals, c)[id := a.amount];
      SumUpdate(InCurrency(accruals, c), id, a.amount);
    } else {
      assert InCurrency(accruals[id := a], c) == InCurrency(accruals, c);
    }
  }

  lemma StepGross(b: Books, o: Op, c: Currency)
    ensures Sum(InCurrency(Step(b, o).accruals, c)) ==
              Sum(InCurrency(b.accruals, c)) +
              if o.Accrue? && o.id !in b.accruals && o.currency == c then o.amount else 0
  {
    if o.Accrue? && o.id !in b.accruals {
      AccrualAddsToGross(b.accruals, o.id, Accrual(o.amount, o.currency, o.payer, ACCRUED, None), c);
    } else {
      StepKeepsFees(b, o);
      SameGross(b.accruals, Step(b, o).accruals, c);
    }
  }

  /** Gross is what was ever accrued: neither sweeps nor waivers nor refunds change it. */
  lemma {:induction false} GrossIsWhatAccrued(b: Books, ops: seq<Op>, c: Currency)
    ensures StatsOf(Exec(b, ops).accruals, c).gross == StatsOf(b.accruals, c).gross + AccruedIn(b, ops, c)
    decreases |ops|
  {
    if ops != [] {
      StepGross(b, ops[0], c);
      GrossIsWhatAccrued(Step(b, ops[0]), ops[1..], c);
    }
  }

  /** What the refunds have done to an account. */
  function Moved(accruals: Accruals, refunds: seq<AccrualId>, k: Account): int {
    if refunds == [] then 0
    else
      var id := refunds[|refunds| - 1];
      Moved(accruals, refunds[..|refunds| - 1], k) + if id in accruals then Effect(accruals[id], k) else 0
  }

  function Effect(a: Accrual, k: Account): int {
    if k == Revenue(a.currency) then 0 - a.amount
    else if k == Main(a.payer, a.currency) then a.amount
    else 0
  }

  /** Refunded accruals are WAIVED, each once, and they explain every balance. */
  ghost predicate MoneyInv(b: Books, start: Wallets) {
    && Distinct(b.refunds)
    && (forall id <- b.refunds :: id in b.accruals && b.accruals[id].status.WAIVED?)
    && b.wallets.Keys == start.Keys
    && forall k <- start :: b.wallets[k] == start[k] + Moved(b.accruals, b.refunds, k)
  }

  lemma {:induction false} MovedDependsOn(a: Accruals, a': Accruals, refunds: seq<AccrualId>, k: Account)
    requires forall id <- refunds :: id in a && id in a' && a[id] == a'[id]
    ensures Moved(a, refunds, k) == Moved(a', refunds, k)
    decreases |refunds|
  {
    if refunds != [] { MovedDependsOn(a, a', refunds[..|refunds| - 1], k); }
  }

  lemma StepKeepsRefunded(b: Books, o: Op, start: Wallets)
    requires MoneyInv(b, start)
    ensures var t := Step(b, o);
            && (forall id <- b.refunds :: id in t.accruals && t.accruals[id] == b.accruals[id])
            && forall k <- start :: Moved(t.accruals, b.refunds, k) == Moved(b.accruals, b.refunds, k)
  {
    var t := Step(b, o);
    forall id | id in b.refunds ensures id in t.accruals && t.accruals[id] == b.accruals[id] {
      StepKeepsFinal(b, o, id);
    }
    forall k | k in start ensures Moved(t.accruals, b.refunds, k) == Moved(b.accruals, b.refunds, k) {
      MovedDependsOn(b.accruals, t.accruals, b.refunds, k);
    }
  }

  lemma RefundKeepsMoney(b: Books, id: AccrualId, start: Wallets)
    requires MoneyInv(b, start) && RefundError(b, id).None?
    ensures MoneyInv(AfterRefund(b, id, false), start)
  {
    var t := AfterRefund(b, id, false);
    StepKeepsRefunded(b, Refund(id, false), start);
    assert id !in b.refunds;
    assert t.refunds[..|b.refunds|] == b.refunds;
    forall k | k in start ensures t.wallets[k] == start[k] + Moved(t.accruals, t.refunds, k) {
      assert Moved(t.accruals, b.refunds, k) == Moved(b.accruals, b.refunds, k);
    }
  }

  /** In every run each accrual is refunded at most once, and every balance is its start plus the
      refunds of that account: what revenue loses, the payers gain. */
  lemma {:induction false} RefundsExplainBalances(b: Books, ops: seq<Op>, start: Wallets)
    requires MoneyInv(b, start)
    ensures MoneyInv(Exec(b, ops), start)
    decreases |ops|
  {
    if ops != [] {
      var o := ops[0];
      if o.Refund? && RefundError(b, o.id).None? && !o.txFails {
        RefundKeepsMoney(b, o.id, start);
      } else {
        StepKeepsRefunded(b, o, start);
        assert Step(b, o).wallets == b.wallets && Step(b, o).refunds == b.refunds;
      }
      RefundsExplainBalances(Step(b, o), ops[1..], start);
    }
  }

  lemma StepConserves(b: Books, o: Op)
    ensures Sum(Step(b, o).wallets) == Sum(b.wallets)
  {
    if o.Refund? && RefundError(b, o.id).None? && !o.txFails {
      var a := b.accruals[o.id];
      var revenue, main := Revenue(a.currency), Main(a.payer, a.currency);
      var w := b.wallets[revenue := b.wallets[revenue] - a.amount];
      SumUpdate(b.wallets, revenue, b.wallets[revenue] - a.amount);
      SumUpdate(w, main, b.wallets[main] + a.amount);
    }
  }

  /** No run creates or destroys money. */
  lemma {:induction false} RunsConserveMoney(b: Books, ops: seq<Op>)
    ensures Sum(Exec(b, ops).wallets) == Sum(b.wallets)
    decreases |ops|
  {
    if ops != [] {
      StepConserves(b, ops[0]);
      RunsConserveMoney(Step(b, ops[0]), ops[1..]);
    }
  }

  /** A refund never overdraws the revenue wallet. */
  lemma {:induction false} RevenueStaysCovered(b: Books, ops: seq<Op>, c: Currency)
    requires Revenue(c) in b.wallets && b.wallets[Revenue(c)] >= 0
    ensures Revenue(c) in Exec(b, ops).wallets && Exec(b, ops).wallets[Revenue(c)] >= 0
    decreases |ops|
  {
    if ops != [] {
      RevenueStaysCovered(Step(b, ops[0]), ops[1..], c);
    }
  }

  // ---- The service as the source has it ----

  class FeeAdminService {
    var accruals: Accruals
    var sweeps: Sweeps
    var wallets: Wallets
    var users: set<UserId>
    var ledgers: set<Account>
    ghost var refunds: seq<AccrualId>

    ghost function View(): Books reads this { Books(accruals, sweeps, wallets, users, ledgers, refunds) }

    /** The reduce over the amounts of the accruals found. */
    method SumAmounts(ids: set<AccrualId>) returns (total: int)
      requires forall id <- ids :: id in accruals
      ensures total == Sum(Amounts(accruals, ids))
    {
      total := 0;
      var rest := ids;
      while rest != {}
        invariant rest <= ids && total + Sum(Amounts(accruals, rest)) == Sum(Amounts(accruals, ids))
        decreases |rest|
      {
        var id :| id in rest;
        SumRemove(Amounts(accruals, rest), id);
        assert Amounts(accruals, rest) - {id} == Amounts(accruals, rest - {id});
        total := total + accruals[id].amount;
        rest := rest - {id};
      }
    }

    method GetStats(c: Currency) returns (s: Stats)
      ensures s == StatsOf(accruals, c) && s.gross == s.unswept + s.swept + s.waived
    {
      GrossIsAccountedFor(accruals, c);
      var inCurrency := set id | id in accruals && accruals[id].currency == c;
      assert Amounts(accruals, inCurrency) == InCurrency(accruals, c);
      var gross := SumAmounts(inCurrency);
      var unswept := SumOfStatus(c, ACCRUED);
      var swept := SumOfStatus(c, SWEPT);
      var waived := SumOfStatus(c, WAIVED);
      s := Stats(gross, unswept, swept, waived);
    }

    method SumOfStatus(c: Currency, st: AccrualStatus) returns (total: int)
      ensures total == Sum(WithStatus(accruals, c, st))
    {
      var ids := set id | id in accruals && accruals[id].currency == c && accruals[id].status == st;
      assert Amounts(accruals, ids) == WithStatus(accruals, c, st);
      total := SumAmounts(ids);
    }

    method WaiveFee(id: AccrualId, saveFails: bool) returns (r: Result<Accrual>)
      modifies this
      ensures View() == AfterWaive(old(View()), id, saveFails)
      ensures WaiveError(old(accruals), id).Some? ==> r == Err(WaiveError(old(accruals), id).value)
      ensures WaiveError(old(accruals), id).None? ==>
                r == if saveFails then Err(StoreFailed) else Ok(old(accruals)[id].(status := WAIVED))
      ensures r.Ok? ==> accruals == old(accruals)[id := r.value]
      ensures r.Err? ==> View() == old(View())
    {
      if id !in accruals {
        return Err(FeeAccrualNotFound);
      }
      var accrual := accruals[id];
      if !accrual.status.ACCRUED? {
        return Err(CannotWaive(accrual.status));
      }
      if saveFails {
        return Err(StoreFailed);
      }
      accrual := accrual.(status := WAIVED);
      accruals := accruals[id := accrual];
      return Ok(accrual);
    }

    method SweepAccruals(c: Currency, sid: SweepId, o: SweepOutcome) returns (r: Result<int>)
      requires sid !in sweeps
      modifies this
      ensures View() == AfterSweep(old(View()), c, sid, o)
      ensures Pending(old(accruals), c) == {} ==> r == Err(NoAccrualsToSweep)
      ensures Pending(old(accruals), c) != {} ==>
                var total := Sum(Amounts(old(accruals), Pending(old(accruals), c)));
                r == if o.AllStored? then Ok(total) else Err(StoreFailed)
      ensures Pending(old(accruals), c) != {} && !o.CreateFails? ==>
                && sid in sweeps && sweeps == old(sweeps)[sid := sweeps[sid]]
                && sweeps[sid].totalAmount == Sum(Amounts(old(accruals), Pending(old(accruals), c)))
                && (sweeps[sid].status.COMPLETED? <==> o.AllStored?)
                && (sweeps[sid].status.FAILED? <==> !o.AllStored? && o.failSaved)
    {
      var pending := Pending(accruals, c);
      if pending == {} {
        return Err(NoAccrualsToSweep);
      }
      var totalAmount := SumAmounts(pending);
      if o.CreateFails? {
        return Err(StoreFailed);
      }
      sweeps := sweeps[sid := Sweep(totalAmount, c, |pending|, PENDING)];
      if o.UpdateFails? {
        accruals := MarkSwept(accruals, o.applied * pending, sid);
        if o.failSaved {
          sweeps := sweeps[sid := sweeps[sid].(status := FAILED)];
        }
        return Err(StoreFailed);
      }
      accruals := MarkSwept(accruals, pending, sid);
      if o.SaveFails? {
        if o.failSaved {
          sweeps := sweeps[sid := sweeps[sid].(status := FAILED)];
        }
        return Err(StoreFailed);
      }
      sweeps := sweeps[sid := sweeps[sid].(status := COMPLETED)];
      return Ok(totalAmount);
    }

    /** The transaction works on copies that its commit writes back; an abort drops them. */
    method WaiveAndRefund(id: AccrualId, txFails: bool) returns (r: Result<nat>)
      modifies this
      ensures View() == AfterRefund(old(View()), id, txFails)
      ensures RefundError(old(View()), id).Some? ==> r == Err(RefundError(old(View()), id).value)
      ensures RefundError(old(View()), id).None? ==>
                r == if txFails then Err(StoreFailed) else Ok(old(accruals)[id].amount)
      ensures r.Err? ==> View() == old(View())
      ensures r.Ok? ==> refunds == old(refunds) + [id] && accruals[id].status.WAIVED?
    {
      if id !in accruals { return Err(FeeAccrualNotFound); }
      var accrual := accruals[id];
      if !accrual.status.ACCRUED? { return Err(CannotWaive(accrual.status)); }
      var revenue, main := Revenue(accrual.currency), Main(accrual.payer, accrual.currency);
      if accrual.payer !in users { return Err(UserNotFound); }
      if revenue !in ledgers { return Err(RevenueLedgerNotFound); }
      if main !in ledgers { return Err(UserLedgerNotFound); }
      if revenue !in wallets { return Err(RevenueWalletNotFound); }
      if wallets[revenue] < accrual.amount { return Err(InsufficientRevenue); }
      if main !in wallets { return Err(UserWalletNotFound); }
      var txWallets := wallets;
      txWallets := txWallets[revenue := txWallets[revenue] - accrual.amount];
      txWallets := txWallets[main := txWallets[main] + accrual.amount];
      var txAccruals := accruals[id := accrual.(status := WAIVED)];
      if txFails { return Err(StoreFailed); }
      wallets, accruals := txWallets, txAccruals;
      refunds := refunds + [id];
      return Ok(accrual.amount);
    }
  }
}
