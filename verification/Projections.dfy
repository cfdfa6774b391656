/** The balance-summary read model and the handlers that update it
    (transfer.projection.ts, funding.projection.ts, reversalProcessor.evt.ts). */
module Projections {
  import opened Collections
  import opened Sums

  type UserId = string

  /** VAULT is the literal the totals test for; SYSTEM_REVENUE stands for every account type
      that the field map does not know. */
  datatype AccountType = MAIN_CHECKINGS | SAVINGS | FLEXIBLE | LOCKED | TARGET | VAULT | SYSTEM_REVENUE

  datatype Party = Party(userId: UserId, accountType: AccountType, currentBalance: int)

  datatype Body =
    | Transfer(feeRefund: bool, sender: Party, receiver: Party, amount: int)
    | Funding(credited: bool, user: UserId, walletType: AccountType, currentBalance: int, amount: int)
    | Reversal(senderId: UserId, receiverId: UserId, reversalAmount: int, originalAmount: int)
    | Unrouted

  datatype Summary = Summary(main: int, savings: int, vault: int, total: int, credit: int, debit: int)

  type Summaries = map<UserId, Summary>

  const NO_SUMMARY := Summary(0, 0, 0, 0, 0, 0)

  function Existing(m: Summaries, u: UserId): Summary {
    if u in m then m[u] else NO_SUMMARY
  }

  predicate StoredInVault(t: AccountType) { t.FLEXIBLE? || t.LOCKED? || t.TARGET? }

  /** `$set: { [accountFieldMap[t]]: balance }`; an unmapped type sets nothing. */
  function SetField(s: Summary, t: AccountType, balance: int): Summary {
    match t
    case MAIN_CHECKINGS => s.(main := balance)
    case SAVINGS => s.(savings := balance)
    case VAULT | SYSTEM_REVENUE => s
    case _ => s.(vault := balance)
  }

  /** One party of a peer transfer or fee refund: its field, and the recomputed total. */
  function Side(s: Summary, p: Party): Summary {
    var main := if p.accountType.MAIN_CHECKINGS? then p.currentBalance else s.main;
    var savings := if p.accountType.SAVINGS? then p.currentBalance else s.savings;
    var vault := if p.accountType.VAULT? then p.currentBalance else s.vault;
    SetField(s, p.accountType, p.currentBalance).(total := main + savings + vault)
  }

  /** A transfer between two accounts of one user. */
  function Internal(s: Summary, a: Party, b: Party): Summary {
    var main := if a.accountType.MAIN_CHECKINGS? then a.currentBalance
                else if b.accountType.MAIN_CHECKINGS? then b.currentBalance else s.main;
    var savings := if a.accountType.SAVINGS? then a.currentBalance
                   else if b.accountType.SAVINGS? then b.currentBalance else s.savings;
    var vault := if a.accountType.VAULT? then a.currentBalance
                 else if b.accountType.VAULT? then b.currentBalance else s.vault;
    SetField(SetField(s, a.accountType, a.currentBalance), b.accountType, b.currentBalance)
    .(total := main + savings + vault)
  }

  function Credited(s: Summary, amount: int): Summary { s.(credit := s.credit + amount) }

  function Debited(s: Summary, amount: int): Summary { s.(debit := s.debit + amount) }

  function Funded(s: Summary, t: AccountType, balance: int): Summary {
    var main := if t.MAIN_CHECKINGS? then balance else s.main;
    s.(main := main, total := main + s.savings + s.vault)
  }

  /** `$inc` of main and total by the same amount. */
  function Shifted(s: Summary, delta: int): Summary { s.(main := s.main + delta, total := s.total + delta) }

  /** The effect of one event on the read model. */
  function Apply(m: Summaries, b: Body): Summaries {
    match b
    case Transfer(true, _, r, amount) =>
      m[r.userId := Credited(Side(Existing(m, r.userId), r), amount)]
    case Transfer(false, s, r, amount) =>
      if s.userId == r.userId then
        m[s.userId := Internal(Existing(m, s.userId), s, r)]
      else
        m[s.userId := Debited(Side(Existing(m, s.userId), s), amount)]
        [r.userId := Credited(Side(Existing(m, r.userId), r), amount)]
    case Funding(credited, u, t, balance, amount) =>
      if !credited then m else m[u := Credited(Funded(Existing(m, u), t, balance), amount)]
    case Reversal(s, r, ra, oa) =>
      var m1 := if s in m then m[s := Credited(Shifted(m[s], ra), ra)] else m;
      if r in m1 then m1[r := Debited(Shifted(m1[r], -oa), oa)] else m1
    case Unrouted => m
  }

  function Fold(m: Summaries, bs: seq<Body>): Summaries
    decreases |bs|
  {
    if bs == [] then m else Fold(Apply(m, bs[0]), bs[1..])
  }

  // ---- What a handler reads, writes and creates ----

  /** The users whose summaries a handler looks at. */
  function Footprint(b: Body): set<UserId> {
    match b
    case Transfer(true, _, r, _) => {r.userId}
    case Transfer(false, s, r, _) => {s.userId, r.userId}
    case Funding(credited, u, _, _, _) => if credited then {u} else {}
    case Reversal(s, r, _, _) => {s, r}
    case Unrouted => {}
  }

  /** The summaries it writes when it runs on m: all it looks at, except that a reversal does not
      upsert and so leaves a missing summary missing. */
  function Writes(b: Body, m: Summaries): set<UserId> {
    if b.Reversal? then Footprint(b) * m.Keys else Footprint(b)
  }

  /** The summaries it brings into being if they are missing. */
  function Creates(b: Body): set<UserId> { if b.Reversal? then {} else Footprint(b) }

  /** The users that a handler run on an older snapshot took to have no summary although they have
      one by now. */
  function Missed(b: Body, snap: Summaries, m: Summaries): set<UserId> { Footprint(b) * (m.Keys - snap.Keys) }

  /** What was missed carries no amount. */
  predicate Harmless(b: Body, missed: set<UserId>) {
    b.Reversal? ==>
      (b.senderId in missed ==> b.reversalAmount == 0) && (b.receiverId in missed ==> b.originalAmount == 0)
  }

  predicate SameAt(m: Summaries, n: Summaries, u: UserId) { (u in m <==> u in n) && (u in m ==> m[u] == n[u]) }

  predicate AgreeOn(m: Summaries, n: Summaries, us: set<UserId>) { forall u <- us :: SameAt(m, n, u) }

  /** Install the documents of `from` that belong to `us` into `m`: what a commit writes. */
  function Overwrite(m: Summaries, from: Summaries, us: set<UserId>): Summaries {
    m + map u | u in from && u in us :: from[u]
  }

  /** A handler touches nobody outside what it writes. */
  lemma ApplyLeaves(m: Summaries, b: Body, u: UserId)
    requires u !in Writes(b, m)
    ensures SameAt(Apply(m, b), m, u)
  {}

  lemma ApplyKeys(m: Summaries, b: Body, u: UserId)
    ensures u in Apply(m, b) <==> u in m || u in Creates(b)
  {}

  /** What a handler does to the users it looks at depends on them only. */
  lemma ApplyPoint(m: Summaries, n: Summaries, b: Body, u: UserId)
    requires AgreeOn(m, n, Footprint(b)) && u in Footprint(b)
    ensures SameAt(Apply(m, b), Apply(n, b), u)
  {
    if b.Transfer? && !b.feeRefund {
      TransferPoint(m, n, b.sender, b.receiver, b.amount, u);
    }
  }

  lemma TransferPoint(m: Summaries, n: Summaries, s: Party, r: Party, amount: int, u: UserId)
    requires AgreeOn(m, n, {s.userId, r.userId}) && u in {s.userId, r.userId}
    ensures var b := Transfer(false, s, r, amount); SameAt(Apply(m, b), Apply(n, b), u)
  {
    assert SameAt(m, n, s.userId) && SameAt(m, n, r.userId);
  }

  lemma SameEverywhere(m: Summaries, n: Summaries)
    requires forall u :: SameAt(m, n, u)
    ensures m == n
  {
    assert forall u :: u in m ==> SameAt(m, n, u);
    assert forall u :: u in n ==> SameAt(m, n, u);
  }

  lemma PlainFrame(m: Summaries, snap: Summaries, b: Body)
    requires !b.Reversal? && AgreeOn(m, snap, Footprint(b))
    ensures Overwrite(m, Apply(snap, b), Footprint(b)) == Apply(m, b)
  {
    var installed, now := Overwrite(m, Apply(snap, b), Footprint(b)), Apply(m, b);
    forall u ensures SameAt(installed, now, u) {
      if u in Footprint(b) {
        ApplyPoint(m, snap, b, u);
        ApplyKeys(snap, b, u);
      } else {
        ApplyLeaves(m, b, u);
      }
    }
    SameEverywhere(installed, now);
  }

  /** What a reversal run on an old snapshot installs for one user. */
  lemma ReversalPoint(m: Summaries, snap: Summaries, b: Body, u: UserId)
    requires b.Reversal? && snap.Keys <= m.Keys && AgreeOn(m, snap, Writes(b, snap))
    ensures var installed := Overwrite(m, Apply(snap, b), Writes(b, snap));
            u in Missed(b, snap, m) ==> u in installed && installed[u] == m[u]
    ensures var installed := Overwrite(m, Apply(snap, b), Writes(b, snap));
            u !in Missed(b, snap, m) ==> SameAt(installed, Apply(m, b), u)
  {
    ApplyKeys(snap, b, u);
    if u in Writes(b, snap) {
      assert SameAt(m, snap, u);
    } else {
      if u !in m { ApplyKeys(m, b, u); }
      if u !in Footprint(b) { ApplyLeaves(m, b, u); }
    }
  }

  /** What it would do now to a user it missed: nothing exactly if no amount is due. */
  lemma MissedPoint(m: Summaries, b: Body, u: UserId)
    requires b.Reversal? && u in m && u in Footprint(b)
    ensures u in Apply(m, b)
    ensures Apply(m, b)[u] == m[u] <==>
              (u == b.senderId ==> b.reversalAmount == 0) && (u == b.receiverId ==> b.originalAmount == 0)
  {}

  /** A reversal that ran on a snapshot without a summary that exists by now: what it installs is
      what it would do now exactly if nothing was due to the missed user. */
  lemma ReversalFrame(m: Summaries, snap: Summaries, b: Body)
    requires b.Reversal? && snap.Keys <= m.Keys && AgreeOn(m, snap, Writes(b, snap))
    ensures Overwrite(m, Apply(snap, b), Writes(b, snap)) == Apply(m, b) <==> Harmless(b, Missed(b, snap, m))
  {
    var installed, now := Overwrite(m, Apply(snap, b), Writes(b, snap)), Apply(m, b);
    forall u | u in Missed(b, snap, m)
      ensures SameAt(installed, now, u) <==>
                (u == b.senderId ==> b.reversalAmount == 0) && (u == b.receiverId ==> b.originalAmount == 0)
    {
      ReversalPoint(m, snap, b, u);
      MissedPoint(m, b, u);
    }
    if Harmless(b, Missed(b, snap, m)) {
      forall u ensures SameAt(installed, now, u) {
        ReversalPoint(m, snap, b, u);
      }
      SameEverywhere(installed, now);
    } else {
      var u := if b.senderId in Missed(b, snap, m) && b.reversalAmount != 0 then b.senderId else b.receiverId;
      assert !SameAt(installed, now, u);
    }
  }

  /** A handler run on an older snapshot whose written documents are unchanged installs what it would
      install on the current read model, exactly if it missed nobody to whom an amount is due. Only a
      reversal can miss anybody. */
  lemma ApplyFrame(m: Summaries, snap: Summaries, b: Body)
    requires snap.Keys <= m.Keys && AgreeOn(m, snap, Writes(b, snap))
    ensures Overwrite(m, Apply(snap, b), Writes(b, snap)) == Apply(m, b) <==> Harmless(b, Missed(b, snap, m))
    ensures !b.Reversal? ==> Missed(b, snap, m) == {}
  {
    if b.Reversal? {
      ReversalFrame(m, snap, b);
    } else {
      PlainFrame(m, snap, b);
      assert forall u <- Footprint(b) :: SameAt(m, snap, u);
    }
  }

  // ---- One event read off its payload, field by field ----

  datatype Field = Main | Savings | Vault

  function ValueOf(s: Summary, f: Field): int {
    match f
    case Main => s.main
    case Savings => s.savings
    case Vault => s.vault
  }

  /** The field under which a balance of an account is stored, if there is one. */
  function StoredUnder(t: AccountType): Option<Field> {
    match t
    case MAIN_CHECKINGS => Some(Main)
    case SAVINGS => Some(Savings)
    case FLEXIBLE | LOCKED | TARGET => Some(Vault)
    case VAULT | SYSTEM_REVENUE => None
  }

  /** The account whose balance is taken for a field when the total is made. */
  function CountedFrom(f: Field): AccountType {
    match f
    case Main => MAIN_CHECKINGS
    case Savings => SAVINGS
    case Vault => VAULT
  }

  /** The event gives the user a summary if there is none. */
  predicate Upserts(b: Body, u: UserId) {
    match b
    case Transfer(feeRefund, s, r, _) => u == r.userId || (!feeRefund && u == s.userId)
    case Funding(credited, v, _, _, _) => credited && u == v
    case Reversal(_, _, _, _) => false
    case Unrouted => false
  }

  /** The balance that the payload states for a field of the user; the receiver's entry is the last. */
  function Named(b: Body, u: UserId, f: Field): Option<int> {
    match b
    case Transfer(feeRefund, s, r, _) =>
      if u == r.userId && StoredUnder(r.accountType) == Some(f) then Some(r.currentBalance)
      else if !feeRefund && u == s.userId && StoredUnder(s.accountType) == Some(f) then Some(s.currentBalance)
      else None
    case Funding(credited, v, t, balance, _) =>
      if credited && u == v && t.MAIN_CHECKINGS? && f.Main? then Some(balance) else None
    case Reversal(_, _, _, _) => None
    case Unrouted => None
  }

  /** The balance that goes into the total for a field; the sender's entry is looked at first. */
  function Counted(b: Body, u: UserId, f: Field): Option<int> {
    match b
    case Transfer(feeRefund, s, r, _) =>
      if !feeRefund && u == s.userId && s.accountType == CountedFrom(f) then Some(s.currentBalance)
      else if u == r.userId && r.accountType == CountedFrom(f) then Some(r.currentBalance)
      else None
    case _ => Named(b, u, f)
  }

  /** What a reversal adds to the main balance of a user who has a summary. */
  function Shift(b: Body, u: UserId): int {
    if !b.Reversal? then 0
    else (if u == b.senderId then b.reversalAmount else 0) - (if u == b.receiverId then b.originalAmount else 0)
  }

  /** What an event adds to the credits of a user who has a summary, or gets one; nothing for a move
      between two accounts of one user. */
  function CreditDue(b: Body, u: UserId): int {
    match b
    case Transfer(feeRefund, s, r, amount) =>
      if u == r.userId && (feeRefund || s.userId != r.userId) then amount else 0
    case Funding(credited, v, _, _, amount) => if credited && u == v then amount else 0
    case Reversal(s, _, ra, _) => if u == s then ra else 0
    case Unrouted => 0
  }

  function DebitDue(b: Body, u: UserId): int {
    match b
    case Transfer(feeRefund, s, r, amount) => if !feeRefund && u == s.userId && s.userId != r.userId then amount else 0
    case Reversal(_, r, _, oa) => if u == r then oa else 0
    case _ => 0
  }

  function Else(o: Option<int>, otherwise: int): int { if o.Some? then o.value else otherwise }

  /** A stored balance: the one the payload states for this field, or the old one with the reversal. */
  predicate FieldFollows(before: Summary, after: Summary, b: Body, u: UserId, f: Field) {
    ValueOf(after, f) == Else(Named(b, u, f), ValueOf(before, f) + if f.Main? then Shift(b, u) else 0)
  }

  predicate TotalFollows(before: Summary, after: Summary, b: Body, u: UserId) {
    after.total ==
    if Upserts(b, u) then
      Else(Counted(b, u, Main), before.main) + Else(Counted(b, u, Savings), before.savings)
      + Else(Counted(b, u, Vault), before.vault)
    else before.total + Shift(b, u)
  }

  /** After the event the user has the summary that the payload and the old summary determine. */
  predicate UserFollows(m: Summaries, n: Summaries, b: Body, u: UserId) {
    && (u in n <==> u in m || Upserts(b, u))
    && (u in n ==>
          && (forall f: Field :: FieldFollows(Existing(m, u), n[u], b, u, f))
          && TotalFollows(Existing(m, u), n[u], b, u)
          && n[u].credit == Existing(m, u).credit + CreditDue(b, u)
          && n[u].debit == Existing(m, u).debit + DebitDue(b, u))
  }

  ghost predicate FollowsPayload(m: Summaries, n: Summaries, b: Body) { forall u :: UserFollows(m, n, b, u) }

  /** Every handler does to every user's fields what the payload says, and nothing else. */
  lemma ApplyFollowsPayload(m: Summaries, b: Body)
    ensures FollowsPayload(m, Apply(m, b), b)
  {
    forall u ensures UserFollows(m, Apply(m, b), b, u) {
      match b
      case Transfer(_, _, _, _) => TransferFollows(m, b, u);
      case Funding(_, _, _, _, _) =>
      case Reversal(_, _, _, _) =>
      case Unrouted =>
    }
  }

  lemma TransferFollows(m: Summaries, b: Body, u: UserId)
    requires b.Transfer?
    ensures UserFollows(m, Apply(m, b), b, u)
  {
    if u !in Footprint(b) {
      ApplyLeaves(m, b, u);
    } else if b.feeRefund {
      RefundFollows(m, b, u);
    } else if b.sender.userId == b.receiver.userId {
      InternalFollows(m, b);
    } else if u == b.sender.userId {
      SenderFollows(m, b);
    } else {
      ReceiverFollows(m, b);
    }
  }

  lemma RefundFollows(m: Summaries, b: Body, u: UserId)
    requires b.Transfer? && b.feeRefund && u == b.receiver.userId
    ensures UserFollows(m, Apply(m, b), b, u)
  {}

  lemma InternalFollows(m: Summaries, b: Body)
    requires b.Transfer? && !b.feeRefund && b.sender.userId == b.receiver.userId
    ensures UserFollows(m, Apply(m, b), b, b.sender.userId)
  {}

  lemma SenderFollows(m: Summaries, b: Body)
    requires b.Transfer? && !b.feeRefund && b.sender.userId != b.receiver.userId
    ensures UserFollows(m, Apply(m, b), b, b.sender.userId)
  {}

  lemma ReceiverFollows(m: Summaries, b: Body)
    requires b.Transfer? && !b.feeRefund && b.sender.userId != b.receiver.userId
    ensures UserFollows(m, Apply(m, b), b, b.receiver.userId)
  {}

  /** The payload leaves no choice: it and the old read model determine the new one. */
  lemma PayloadDetermines(m: Summaries, n: Summaries, b: Body)
    requires FollowsPayload(m, n, b)
    ensures n == Apply(m, b)
  {
    ApplyFollowsPayload(m, b);
    forall u ensures SameAt(n, Apply(m, b), u) {
      assert UserFollows(m, n, b, u) && UserFollows(m, Apply(m, b), b, u);
      if u in n { SameFields(Existing(m, u), n[u], Apply(m, b)[u], b, u); }
    }
    SameEverywhere(n, Apply(m, b));
  }

  lemma SameFields(before: Summary, s: Summary, t: Summary, b: Body, u: UserId)
    requires forall f: Field :: FieldFollows(before, s, b, u, f) && FieldFollows(before, t, b, u, f)
    requires TotalFollows(before, s, b, u) && TotalFollows(before, t, b, u)
    requires s.credit == t.credit && s.debit == t.debit
    ensures s == t
  {
    assert FieldFollows(before, s, b, u, Main) && FieldFollows(before, t, b, u, Main);
    assert FieldFollows(before, s, b, u, Savings) && FieldFollows(before, t, b, u, Savings);
    assert FieldFollows(before, s, b, u, Vault) && FieldFollows(before, t, b, u, Vault);
  }

  // ---- totalBalance == mainBalance + savingsBalance + vaultBalance ----

  predicate Balanced(s: Summary) { s.total == s.main + s.savings + s.vault }

  predicate AllBalanced(m: Summaries) { forall u <- m :: Balanced(m[u]) }

  /** The vault account types are stored under one name and totalled under another, so a vault
      side keeps the sum only when it does not move the vault balance. */
  predicate SideSound(s: Summary, p: Party) {
    StoredInVault(p.accountType) || p.accountType.VAULT? ==> p.currentBalance == s.vault
  }

  /** What an internal move must satisfy: two entries for the same field must agree, because
      the field keeps the receiver's and the total counts the sender's; and the vault balance
      that is stored must be the one that is counted. */
  predicate InternalSound(s: Summary, a: Party, b: Party) {
    if a.accountType == b.accountType && (a.accountType.MAIN_CHECKINGS? || a.accountType.SAVINGS?) then
      a.currentBalance == b.currentBalance
    else
      var stored := if StoredInVault(b.accountType) then b.currentBalance
                    else if StoredInVault(a.accountType) then a.currentBalance else s.vault;
      var counted := if a.accountType.VAULT? then a.currentBalance
                     else if b.accountType.VAULT? then b.currentBalance else s.vault;
      stored == counted
  }

  predicate Sound(m: Summaries, b: Body) {
    match b
    case Transfer(true, _, r, _) => SideSound(Existing(m, r.userId), r)
    case Transfer(false, s, r, _) =>
      if s.userId == r.userId then InternalSound(Existing(m, s.userId), s, r)
      else SideSound(Existing(m, s.userId), s) && SideSound(Existing(m, r.userId), r)
    case _ => true
  }

  lemma UpdateBalanced(m: Summaries, u: UserId, s: Summary)
    requires AllBalanced(m)
    ensures AllBalanced(m[u := s]) <==> Balanced(s)
  {
    assert m[u := s][u] == s;
  }

  lemma TwoUpdatesBalanced(m: Summaries, u: UserId, s: Summary, v: UserId, t: Summary)
    requires AllBalanced(m) && u != v
    ensures AllBalanced(m[u := s][v := t]) <==> Balanced(s) && Balanced(t)
  {
    var n := m[u := s][v := t];
    assert n[u] == s && n[v] == t;
  }

  lemma InternalKeepsSumIff(m: Summaries, s: Party, r: Party, amount: int)
    requires AllBalanced(m) && s.userId == r.userId
    ensures AllBalanced(Apply(m, Transfer(false, s, r, amount))) <==> InternalSound(Existing(m, s.userId), s, r)
  {
    var existing := Existing(m, s.userId);
    InternalIff(existing, s, r);
    UpdateBalanced(m, s.userId, Internal(existing, s, r));
  }

  /** Crediting or debiting moves no balance, and a user without a summary is balanced at zero. */
  lemma PartyIff(m: Summaries, p: Party, amount: int)
    requires AllBalanced(m)
    ensures Balanced(Credited(Side(Existing(m, p.userId), p), amount)) <==> SideSound(Existing(m, p.userId), p)
    ensures Balanced(Debited(Side(Existing(m, p.userId), p), amount)) <==> SideSound(Existing(m, p.userId), p)
  {
    SideIff(Existing(m, p.userId), p);
  }

  lemma PeerKeepsSumIff(m: Summaries, s: Party, r: Party, amount: int)
    requires AllBalanced(m) && s.userId != r.userId
    ensures AllBalanced(Apply(m, Transfer(false, s, r, amount))) <==>
              SideSound(Existing(m, s.userId), s) && SideSound(Existing(m, r.userId), r)
  {
    PartyIff(m, s, amount);
    PartyIff(m, r, amount);
    PeerUpdatesBalanced(m, s, r, amount);
  }

  lemma PeerUpdatesBalanced(m: Summaries, s: Party, r: Party, amount: int)
    requires AllBalanced(m) && s.userId != r.userId
    ensures AllBalanced(Apply(m, Transfer(false, s, r, amount))) <==>
              && Balanced(Debited(Side(Existing(m, s.userId), s), amount))
              && Balanced(Credited(Side(Existing(m, r.userId), r), amount))
  {
    TwoUpdatesBalanced(m, s.userId, Debited(Side(Existing(m, s.userId), s), amount),
                       r.userId, Credited(Side(Existing(m, r.userId), r), amount));
  }

  lemma RefundKeepsSumIff(m: Summaries, s: Party, r: Party, amount: int)
    requires AllBalanced(m)
    ensures AllBalanced(Apply(m, Transfer(true, s, r, amount))) <==> SideSound(Existing(m, r.userId), r)
  {
    PartyIff(m, r, amount);
    UpdateBalanced(m, r.userId, Credited(Side(Existing(m, r.userId), r), amount));
  }

  lemma FundingKeepsSum(m: Summaries, credited: bool, u: UserId, t: AccountType, balance: int, amount: int)
    requires AllBalanced(m)
    ensures AllBalanced(Apply(m, Funding(credited, u, t, balance, amount)))
  {
    UpdateBalanced(m, u, Credited(Funded(Existing(m, u), t, balance), amount));
  }

  lemma ReversalKeepsSum(m: Summaries, s: UserId, r: UserId, ra: int, oa: int)
    requires AllBalanced(m)
    ensures AllBalanced(Apply(m, Reversal(s, r, ra, oa)))
  {
    var m1 := if s in m then m[s := Credited(Shifted(m[s], ra), ra)] else m;
    if s in m { UpdateBalanced(m, s, Credited(Shifted(m[s], ra), ra)); }
    if r in m1 { UpdateBalanced(m1, r, Debited(Shifted(m1[r], -oa), oa)); }
  }

  /** Exactly when one event keeps the summary invariant. */
  lemma SumKeptIff(m: Summaries, b: Body)
    requires AllBalanced(m)
    ensures AllBalanced(Apply(m, b)) <==> Sound(m, b)
  {
    match b
    case Transfer(true, s, r, amount) => RefundKeepsSumIff(m, s, r, amount);
    case Transfer(false, s, r, amount) =>
      if s.userId == r.userId {
        InternalKeepsSumIff(m, s, r, amount);
      } else {
        PeerKeepsSumIff(m, s, r, amount);
      }
    case Funding(credited, u, t, balance, amount) => FundingKeepsSum(m, credited, u, t, balance, amount);
    case Reversal(s, r, ra, oa) => ReversalKeepsSum(m, s, r, ra, oa);
    case Unrouted =>
  }

  lemma SideIff(s: Summary, p: Party)
    requires Balanced(s)
    ensures Balanced(Side(s, p)) <==> SideSound(s, p)
  {}

  lemma InternalIff(s: Summary, a: Party, b: Party)
    requires Balanced(s)
    ensures Balanced(Internal(s, a, b)) <==> InternalSound(s, a, b)
  {}

  predicate PlainAccount(t: AccountType) { t.MAIN_CHECKINGS? || t.SAVINGS? }

  /** The events the invariant is meant for: checking and savings accounts, and internal moves
      between two different account types. */
  predicate Ordinary(b: Body) {
    b.Transfer? ==>
      && PlainAccount(b.receiver.accountType)
      && (b.feeRefund || PlainAccount(b.sender.accountType))
      && (!b.feeRefund && b.sender.userId == b.receiver.userId ==> b.sender.accountType != b.receiver.accountType)
  }

  lemma OrdinaryIsSound(m: Summaries, b: Body)
    requires Ordinary(b)
    ensures Sound(m, b)
  {}

  /** The summary invariant holds after every run of ordinary events. */
  lemma {:induction false} RunKeepsSums(m: Summaries, bs: seq<Body>)
    requires AllBalanced(m)
    requires forall b <- bs :: Ordinary(b)
    ensures AllBalanced(Fold(m, bs))
    decreases |bs|
  {
    if bs != [] {
      assert bs[0] in bs;
      OrdinaryIsSound(m, bs[0]);
      SumKeptIff(m, bs[0]);
      RunKeepsSums(Apply(m, bs[0]), bs[1..]);
    }
  }

  /** Every deposit into a FLEXIBLE, LOCKED or TARGET vault that moves the vault balance breaks the sum,
      whether it comes from another user, from the system or from another account of the same user:
      the new vault balance is stored, and the old one is totalled. */
  lemma VaultDepositBreaksSum(m: Summaries, feeRefund: bool, sender: Party, receiver: Party, amount: int)
    requires AllBalanced(m)
    requires StoredInVault(receiver.accountType) && !sender.accountType.VAULT?
    requires receiver.currentBalance != Existing(m, receiver.userId).vault
    ensures !AllBalanced(Apply(m, Transfer(feeRefund, sender, receiver, amount)))
  {
    SumKeptIff(m, Transfer(feeRefund, sender, receiver, amount));
  }

  // ---- Conservation of totalCredit - totalDebit ----

  function NetOf(m: Summaries): map<UserId, int> { map u | u in m :: m[u].credit - m[u].debit }

  ghost function Net(m: Summaries): int { Sum(NetOf(m)) }

  /** What an event adds to the system as a whole, read off its payload alone except that a
      reversal only reaches users who already have a summary. */
  function Inflow(m: Summaries, b: Body): int {
    match b
    case Transfer(feeRefund, _, _, amount) => if feeRefund then amount else 0
    case Funding(credited, _, _, _, amount) => if credited then amount else 0
    case Reversal(s, r, ra, oa) => (if s in m then ra else 0) - (if r in m then oa else 0)
    case Unrouted => 0
  }

  function Inflows(m: Summaries, bs: seq<Body>): int
    decreases |bs|
  {
    if bs == [] then 0 else Inflow(m, bs[0]) + Inflows(Apply(m, bs[0]), bs[1..])
  }

  lemma NetUpdate(m: Summaries, u: UserId, s: Summary)
    ensures Net(m[u := s]) == Net(m) + (s.credit - s.debit) - (Existing(m, u).credit - Existing(m, u).debit)
  {
    SumUpdate(NetOf(m), u, s.credit - s.debit);
    assert NetOf(m[u := s]) == NetOf(m)[u := s.credit - s.debit];
  }

  lemma PeerTransferNet(m: Summaries, s: Party, r: Party, amount: int)
    requires s.userId != r.userId
    ensures Net(Apply(m, Transfer(false, s, r, amount))) == Net(m)
  {
    var d := Debited(Side(Existing(m, s.userId), s), amount);
    NetUpdate(m, s.userId, d);
    NetUpdate(m[s.userId := d], r.userId, Credited(Side(Existing(m, r.userId), r), amount));
  }

  lemma ReversalNet(m: Summaries, s: UserId, r: UserId, ra: int, oa: int)
    ensures Net(Apply(m, Reversal(s, r, ra, oa))) == Net(m) + Inflow(m, Reversal(s, r, ra, oa))
  {
    var m1 := if s in m then m[s := Credited(Shifted(m[s], ra), ra)] else m;
    if s in m { NetUpdate(m, s, m1[s]); }
    if r in m1 { NetUpdate(m1, r, Debited(Shifted(m1[r], -oa), oa)); }
  }

  lemma NetStep(m: Summaries, b: Body)
    ensures Net(Apply(m, b)) == Net(m) + Inflow(m, b)
  {
    match b
    case Transfer(true, _, r, amount) =>
      NetUpdate(m, r.userId, Credited(Side(Existing(m, r.userId), r), amount));
    case Transfer(false, s, r, amount) =>
      if s.userId == r.userId {
        NetUpdate(m, s.userId, Internal(Existing(m, s.userId), s, r));
      } else {
        PeerTransferNet(m, s, r, amount);
      }
    case Funding(credited, u, t, balance, amount) =>
      NetUpdate(m, u, Credited(Funded(Existing(m, u), t, balance), amount));
    case Reversal(s, r, ra, oa) =>
      ReversalNet(m, s, r, ra, oa);
    case Unrouted =>
  }

  /** Global conservation: over every run the net of all credits and debits grows by exactly the
      inflows; peer transfers and internal moves contribute nothing. */
  lemma {:induction false} RunConservesNet(m: Summaries, bs: seq<Body>)
    ensures Net(Fold(m, bs)) == Net(m) + Inflows(m, bs)
    decreases |bs|
  {
    if bs != [] {
      NetStep(m, bs[0]);
      RunConservesNet(Apply(m, bs[0]), bs[1..]);
    }
  }

  /** The payload-only account of a run: fundings, refunds, and the difference a reversal keeps. */
  function PayloadTotal(bs: seq<Body>): int {
    if bs == [] then 0
    else
      (match bs[0]
       case Transfer(feeRefund, _, _, amount) => if feeRefund then amount else 0
       case Funding(credited, _, _, _, amount) => if credited then amount else 0
       case Reversal(_, _, ra, oa) => ra - oa
       case Unrouted => 0) + PayloadTotal(bs[1..])
  }

  predicate ReversalsFindBoth(m: Summaries, bs: seq<Body>)
    decreases |bs|
  {
    bs != [] ==>
      && (bs[0].Reversal? ==> bs[0].senderId in m && bs[0].receiverId in m)
      && ReversalsFindBoth(Apply(m, bs[0]), bs[1..])
  }

  /** Starting from an empty read model, when every reversal finds its two summaries, the net is
      the sum of fundings, fee refunds and reversal differences. */
  lemma {:induction false} NetIsPayloadTotal(m: Summaries, bs: seq<Body>)
    requires ReversalsFindBoth(m, bs)
    ensures Net(Fold(m, bs)) == Net(m) + PayloadTotal(bs)
    decreases |bs|
  {
    if bs != [] {
      NetStep(m, bs[0]);
      NetIsPayloadTotal(Apply(m, bs[0]), bs[1..]);
    }
  }

  // ---- The handlers themselves, updating the collection in place ----

  class BalanceSummaries {
    var docs: Summaries

    constructor ()
      ensures docs == map[]
    {
      docs := map[];
    }

    /** `findOne({ userId })`, absent fields read as 0. */
    method FindOne(u: UserId) returns (s: Summary)
      ensures s == Existing(docs, u)
    {
      s := if u in docs then docs[u] else NO_SUMMARY;
    }

    method HandleTransactionCompleted(feeRefund: bool, sender: Party, receiver: Party, amount: int)
      modifies this
      ensures docs == Apply(old(docs), Transfer(feeRefund, sender, receiver, amount))
      ensures FollowsPayload(old(docs), docs, Transfer(feeRefund, sender, receiver, amount))
    {
      ApplyFollowsPayload(docs, Transfer(feeRefund, sender, receiver, amount));
      if feeRefund {
        var existing := FindOne(receiver.userId);
        docs := docs[receiver.userId := Credited(Side(existing, receiver), amount)];
        return;
      }
      if sender.userId == receiver.userId {
        var existing := FindOne(sender.userId);
        docs := docs[sender.userId := Internal(existing, sender, receiver)];
      } else {
        var senderExisting := FindOne(sender.userId);
        docs := docs[sender.userId := Debited(Side(senderExisting, sender), amount)];
        var receiverExisting := FindOne(receiver.userId);
        docs := docs[receiver.userId := Credited(Side(receiverExisting, receiver), amount)];
      }
    }

    method HandleFundingProjection(credited: bool, u: UserId, t: AccountType, currentBalance: int, amount: int)
      modifies this
      ensures docs == Apply(old(docs), Funding(credited, u, t, currentBalance, amount))
      ensures FollowsPayload(old(docs), docs, Funding(credited, u, t, currentBalance, amount))
    {
      ApplyFollowsPayload(docs, Funding(credited, u, t, currentBalance, amount));
      if !credited {
        return;
      }
      var existing := FindOne(u);
      docs := docs[u := Credited(Funded(existing, t, currentBalance), amount)];
    }

    method HandleTransferReversed(s: UserId, r: UserId, reversalAmount: int, originalAmount: int)
      modifies this
      ensures docs == Apply(old(docs), Reversal(s, r, reversalAmount, originalAmount))
      ensures FollowsPayload(old(docs), docs, Reversal(s, r, reversalAmount, originalAmount))
    {
      ApplyFollowsPayload(docs, Reversal(s, r, reversalAmount, originalAmount));
      if s in docs {
        docs := docs[s := Credited(Shifted(docs[s], reversalAmount), reversalAmount)];
      }
      if r in docs {
        docs := docs[r := Debited(Shifted(docs[r], -originalAmount), originalAmount)];
      }
    }
  }
}
