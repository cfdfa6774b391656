/** The outbox router (debezium.outboxrouter.ts): change records of the outbox collection are routed
    to their topics, with a crash possible between any two of sending, marking and committing. */
module OutboxRouter {
  import opened Collections

  type EventId = string

  datatype Status = PENDING | SENT | OTHER

  datatype Row = Row(topic: string, status: Status)

  /** A record of the change topic: an empty value, a value that is not JSON, or a document. */
  datatype Record = Tombstone | Garbage | Doc(id: EventId, topic: string, status: Status)

  const ROUTED_TOPICS: set<string> :=
    {"transfer.events", "auth.events", "audit.events", "vault.events", "password.events", "kyc.events",
     "payment.events", "funding.events", "confirmed.transfer.events", "pin.events", "reversal.events",
     "reconciliation.events"}

  /** The domains that have a topic of events. */
  datatype Domain =
    AUTH | PASSWORD | TRANSFER | CONFIRMED_TRANSFER | AUDIT | VAULT | KYC | PAYMENT | FUNDING | RECONCILIATION | WALLET
    | PIN | REVERSAL

  function EventsTopic(d: Domain): string {
    match d
    case AUTH => "auth.events"
    case PASSWORD => "password.events"
    case TRANSFER => "transfer.events"
    case CONFIRMED_TRANSFER => "confirmed.transfer.events"
    case AUDIT => "audit.events"
    case VAULT => "vault.events"
    case KYC => "kyc.events"
    case PAYMENT => "payment.events"
    case FUNDING => "funding.events"
    case RECONCILIATION => "reconciliation.events"
    case WALLET => "wallet.events"
    case PIN => "pin.events"
    case REVERSAL => "reversal.events"
  }

  /** The router knows the events topic of every domain but the wallet's, and no other topic. */
  lemma RoutedIff(topic: string)
    ensures topic in ROUTED_TOPICS <==> exists d: Domain :: !d.WALLET? && EventsTopic(d) == topic
    ensures EventsTopic(WALLET) !in ROUTED_TOPICS
  {
    assert EventsTopic(WALLET)[0] == 'w';
    assert forall t <- ROUTED_TOPICS :: t[0] != 'w';
    if topic in ROUTED_TOPICS {
      assert EventsTopic(AUTH) == topic || EventsTopic(PASSWORD) == topic || EventsTopic(TRANSFER) == topic
             || EventsTopic(CONFIRMED_TRANSFER) == topic || EventsTopic(AUDIT) == topic || EventsTopic(VAULT) == topic
             || EventsTopic(KYC) == topic || EventsTopic(PAYMENT) == topic || EventsTopic(FUNDING) == topic
             || EventsTopic(RECONCILIATION) == topic || EventsTopic(PIN) == topic || EventsTopic(REVERSAL) == topic;
    }
  }

  predicate Routable(r: Record) { r.Doc? && r.status.PENDING? && r.topic in ROUTED_TOPICS }

  datatype Phase = Down | Idle | Sent | Done(routed: bool)

  /** `position` is the offset being worked on and `committed` what the group has stored, if anything.
      The histories `sends` (offsets whose record was produced, in order), `marks` (at which offset a
      row was marked SENT), `inserts` (the offset of a row's first record), `base` (where the session
      that stored the first offset began) and `crashes` are read by no step. */
  datatype State = State(
    rows: map<EventId, Row>, log: seq<Record>, committed: Option<nat>, position: nat, phase: Phase,
    sends: seq<nat>, marks: map<EventId, nat>, inserts: map<EventId, nat>, base: nat, crashes: nat)

  const INIT := State(map[], [], None, 0, Down, [], map[], map[], 0, 0)

  datatype Action =
    | Insert(id: EventId, topic: string, pending: bool)
    | Noise(garbage: bool)
    | Join
    | Handle
    | Mark
    | CommitOffset
    | Crash

  /** One atomic step; an action that is not enabled leaves the state unchanged. */
  function Step(s: State, a: Action): State {
    match a
    // eventId is unique: a second insert of the same event is skipped.
    case Insert(id, topic, pending) =>
      if id in s.rows then s
      else
        var status := if pending then PENDING else OTHER;
        s.(rows := s.rows[id := Row(topic, status)], log := s.log + [Doc(id, topic, status)],
             inserts := s.inserts[id := |s.log|])
    case Noise(garbage) => s.(log := s.log + [if garbage then Garbage else Tombstone])
    // A group without a stored offset seeks to the end; another resumes from its offset.
    case Join =>
      if !s.phase.Down? then s
      else if s.committed.None? then s.(position := |s.log|, base := |s.log|, phase := Idle)
      else s.(position := s.committed.value, phase := Idle)
    case Handle =>
      if !s.phase.Idle? || s.position >= |s.log| then s
      else if Routable(s.log[s.position]) then s.(phase := Sent, sends := s.sends + [s.position])
      else s.(phase := Done(false))
    case Mark =>
      if !s.phase.Sent? || s.position >= |s.log| || !s.log[s.position].Doc? then s
      else
        var id := s.log[s.position].id;
        if id in s.rows && s.rows[id].status.PENDING? then
          var row := s.rows[id].(status := SENT);
          s.(rows := s.rows[id := row], log := s.log + [Doc(id, row.topic, SENT)],
             marks := s.marks[id := s.position], phase := Done(true))
        else s.(phase := Done(true))
    case CommitOffset =>
      if !s.phase.Done? then s
      else s.(committed := Some(s.position + 1), position := s.position + 1, phase := Idle)
    // A crash, a rebalance, or an operation that throws out of the handler.
    case Crash => if s.phase.Down? then s else s.(phase := Down, crashes := s.crashes + 1)
  }

  function Exec(s: State, acts: seq<Action>): State
    decreases |acts|
  {
    if acts == [] then s else Exec(Step(s, acts[0]), acts[1..])
  }

  // ---- The invariant ----

  function Resume(committed: Option<nat>, base: nat): nat { if committed.Some? then committed.value else base }

  predicate InFlight(p: Phase) { p.Sent? || p == Done(true) }

  /** Where the handler stands. */
  predicate Positioned(s: State) {
    && s.position == Resume(s.committed, s.base)
    && s.base <= s.position <= |s.log|
    && (s.phase.Sent? || s.phase.Done? ==> s.position < |s.log|)
    && (InFlight(s.phase) ==> Routable(s.log[s.position]) && s.position in s.sends)
    && (s.phase == Done(true) ==> s.log[s.position].id in s.marks)
    && (s.phase == Done(false) ==> !Routable(s.log[s.position]))
  }

  /** Every routable record between the first session's start and the stored offset was produced, and
      its row was marked. */
  predicate Passed(log: seq<Record>, base: nat, position: nat, sends: seq<nat>, marks: map<EventId, nat>) {
    forall o :: base <= o < position && o < |log| && Routable(log[o]) ==> o in sends && log[o].id in marks
  }

  predicate Ordered(sends: seq<nat>) { forall i, j :: 0 <= i < j < |sends| ==> sends[i] <= sends[j] }

  predicate SendsOk(log: seq<Record>, sends: seq<nat>, position: nat) {
    && Ordered(sends)
    && forall o <- sends :: o <= position && o < |log| && Routable(log[o])
  }

  /** Without a crash no offset is produced twice. */
  predicate OnceEach(sends: seq<nat>, position: nat, inFlight: bool) {
    && (forall i, j :: 0 <= i < j < |sends| ==> sends[i] < sends[j])
    && (!inFlight ==> forall o <- sends :: o < position)
  }

  /** The log is what the rows' changes have written. */
  predicate LogMatchesRows(rows: map<EventId, Row>, log: seq<Record>, marks: map<EventId, nat>,
                           inserts: map<EventId, nat>) {
    forall o :: 0 <= o < |log| && log[o].Doc? ==> RecordMatches(rows, log[o], o, marks, inserts)
  }

  /** A PENDING record is the row's first, and the row is PENDING still or has been marked. */
  predicate RecordMatches(rows: map<EventId, Row>, r: Record, o: nat, marks: map<EventId, nat>,
                          inserts: map<EventId, nat>)
    requires r.Doc?
  {
    && r.id in rows
    && (r.status.PENDING? ==>
          && r.id in inserts && inserts[r.id] == o
          && rows[r.id].topic == r.topic && (rows[r.id].status.PENDING? || r.id in marks))
  }

  /** Exactly the SENT rows are marked, each at an offset that was produced. */
  predicate MarksOk(rows: map<EventId, Row>, log: seq<Record>, sends: seq<nat>, marks: map<EventId, nat>) {
    && (forall id <- rows :: rows[id].status.SENT? <==> id in marks)
    && (forall id <- marks ::
          id in rows && marks[id] in sends && marks[id] < |log| && log[marks[id]].Doc? && log[marks[id]].id == id)
  }

  function DocsIn(log: seq<Record>): nat {
    if log == [] then 0 else DocsIn(log[..|log| - 1]) + if log[|log| - 1].Doc? then 1 else 0
  }

  /** The routable records below an offset. */
  function RoutableBelow(log: seq<Record>, n: nat): nat
    requires n <= |log|
  {
    if n == 0 then 0 else RoutableBelow(log, n - 1) + if Routable(log[n - 1]) then 1 else 0
  }

  predicate Counted(s: State)
    requires s.position <= |s.log|
  {
    && DocsIn(s.log) == |s.rows| + |s.marks|
    && |s.sends| <= RoutableBelow(s.log, s.position) + s.crashes + if InFlight(s.phase) then 1 else 0
  }

  ghost predicate HandlerInv(s: State) {
    && Positioned(s)
    && Passed(s.log, s.base, s.position, s.sends, s.marks)
    && SendsOk(s.log, s.sends, s.position)
    && (s.crashes == 0 ==> OnceEach(s.sends, s.position, InFlight(s.phase)))
  }

  ghost predicate DataInv(s: State) {
    LogMatchesRows(s.rows, s.log, s.marks, s.inserts) && MarksOk(s.rows, s.log, s.sends, s.marks)
  }

  ghost predicate Inv(s: State) { HandlerInv(s) && DataInv(s) && Counted(s) }

  lemma {:induction false} RoutableBelowPrefix(log: seq<Record>, more: seq<Record>, n: nat)
    requires n <= |log|
    ensures RoutableBelow(log + more, n) == RoutableBelow(log, n)
  {
    if n > 0 { RoutableBelowPrefix(log, more, n - 1); }
  }

  lemma {:induction false} RoutableBelowMonotone(log: seq<Record>, m: nat, n: nat)
    requires m <= n <= |log|
    ensures RoutableBelow(log, m) <= RoutableBelow(log, n)
    decreases n
  {
    if m < n { RoutableBelowMonotone(log, m, n - 1); }
  }

  /** A change record is appended: the handler's part of the invariant does not notice. */
  lemma AppendKeepsHandler(s: State, t: State, r: Record)
    requires HandlerInv(s)
    requires t == s.(rows := t.rows, inserts := t.inserts, log := s.log + [r])
    ensures HandlerInv(t)
  {}

  lemma AppendCounts(log: seq<Record>, r: Record, n: nat)
    requires n <= |log|
    ensures RoutableBelow(log + [r], n) == RoutableBelow(log, n)
    ensures DocsIn(log + [r]) == DocsIn(log) + if r.Doc? then 1 else 0
  {
    RoutableBelowPrefix(log, [r], n);
    assert (log + [r])[..|log|] == log;
  }

  lemma AppendKeepsMarks(rows: map<EventId, Row>, rows': map<EventId, Row>, log: seq<Record>, r: Record,
                         sends: seq<nat>, marks: map<EventId, nat>)
    requires MarksOk(rows, log, sends, marks)
    requires forall id <- rows' :: rows'[id].status.SENT? <==> id in marks
    requires forall id <- marks :: id in rows'
    ensures MarksOk(rows', log + [r], sends, marks)
  {}

  lemma InsertMatches(rows: map<EventId, Row>, log: seq<Record>, marks: map<EventId, nat>, inserts: map<EventId, nat>,
                      id: EventId, row: Row)
    requires LogMatchesRows(rows, log, marks, inserts) && id !in rows && !row.status.SENT?
    ensures LogMatchesRows(rows[id := row], log + [Doc(id, row.topic, row.status)], marks, inserts[id := |log|])
  {
    var rows', log' := rows[id := row], log + [Doc(id, row.topic, row.status)];
    forall o | 0 <= o < |log| && log[o].Doc? ensures RecordMatches(rows', log'[o], o, marks, inserts[id := |log|]) {
      assert RecordMatches(rows, log[o], o, marks, inserts);
    }
  }

  lemma NoiseMatches(rows: map<EventId, Row>, log: seq<Record>, marks: map<EventId, nat>, inserts: map<EventId, nat>,
                     r: Record)
    requires LogMatchesRows(rows, log, marks, inserts) && !r.Doc?
    ensures LogMatchesRows(rows, log + [r], marks, inserts)
  {
    forall o | 0 <= o < |log| && log[o].Doc? ensures RecordMatches(rows, (log + [r])[o], o, marks, inserts) {
      assert RecordMatches(rows, log[o], o, marks, inserts);
    }
  }

  lemma MarkMatches(rows: map<EventId, Row>, log: seq<Record>, marks: map<EventId, nat>, inserts: map<EventId, nat>,
                    id: EventId, at: nat)
    requires LogMatchesRows(rows, log, marks, inserts) && id in rows
    ensures var row := rows[id].(status := SENT);
            LogMatchesRows(rows[id := row], log + [Doc(id, row.topic, SENT)], marks[id := at], inserts)
  {
    var row := rows[id].(status := SENT);
    var rows', log' := rows[id := row], log + [Doc(id, row.topic, SENT)];
    forall o | 0 <= o < |log| && log[o].Doc? ensures RecordMatches(rows', log'[o], o, marks[id := at], inserts) {
      assert RecordMatches(rows, log[o], o, marks, inserts);
    }
  }

  lemma InsertKeepsInv(s: State, id: EventId, topic: string, pending: bool)
    requires Inv(s)
    ensures Inv(Step(s, Insert(id, topic, pending)))
  {
    var t := Step(s, Insert(id, topic, pending));
    if id !in s.rows {
      var row := Row(topic, if pending then PENDING else OTHER);
      var r := Doc(id, topic, row.status);
      AppendKeepsHandler(s, t, r);
      AppendCounts(s.log, r, s.position);
      AppendKeepsMarks(s.rows, t.rows, s.log, r, s.sends, s.marks);
      InsertMatches(s.rows, s.log, s.marks, s.inserts, id, row);
    }
  }

  lemma NoiseKeepsInv(s: State, garbage: bool)
    requires Inv(s)
    ensures Inv(Step(s, Noise(garbage)))
  {
    var r := if garbage then Garbage else Tombstone;
    AppendKeepsHandler(s, Step(s, Noise(garbage)), r);
    AppendCounts(s.log, r, s.position);
    AppendKeepsMarks(s.rows, s.rows, s.log, r, s.sends, s.marks);
    NoiseMatches(s.rows, s.log, s.marks, s.inserts, r);
  }

  lemma JoinKeepsInv(s: State)
    requires Inv(s)
    ensures Inv(Step(s, Join))
  {
    RoutableBelowMonotone(s.log, s.position, |s.log|);
  }

  /** Producing the record under work keeps the history in offset order. */
  lemma ProducedInOrder(log: seq<Record>, sends: seq<nat>, position: nat)
    requires SendsOk(log, sends, position) && position < |log| && Routable(log[position])
    ensures SendsOk(log, sends + [position], position)
    ensures OnceEach(sends, position, false) ==> OnceEach(sends + [position], position, true)
  {
    assert forall i | 0 <= i < |sends| :: sends[i] in sends;
  }

  lemma HandleKeepsHandler(s: State)
    requires HandlerInv(s) && s.phase.Idle? && s.position < |s.log| && Routable(s.log[s.position])
    ensures HandlerInv(Step(s, Handle))
  {
    var t := Step(s, Handle);
    ProducedInOrder(s.log, s.sends, s.position);
    assert forall o <- s.sends :: o in t.sends;
    assert t.sends[|s.sends|] == s.position;
  }

  lemma SendKeepsMarks(rows: map<EventId, Row>, log: seq<Record>, sends: seq<nat>, o: nat, marks: map<EventId, nat>)
    requires MarksOk(rows, log, sends, marks)
    ensures MarksOk(rows, log, sends + [o], marks)
  {}

  lemma HandleKeepsInv(s: State)
    requires Inv(s)
    ensures Inv(Step(s, Handle))
  {
    if s.phase.Idle? && s.position < |s.log| && Routable(s.log[s.position]) {
      HandleKeepsHandler(s);
      SendKeepsMarks(s.rows, s.log, s.sends, s.position, s.marks);
    }
  }

  /** The guarded update: it finds the row PENDING, or the row is marked already. */
  lemma MarkFinds(rows: map<EventId, Row>, log: seq<Record>, sends: seq<nat>, marks: map<EventId, nat>, o: nat)
    requires o < |log| && Routable(log[o]) && MarksOk(rows, log, sends, marks)
    requires log[o].id in rows && (rows[log[o].id].status.PENDING? || log[o].id in marks)
    ensures rows[log[o].id].status.PENDING? <==> log[o].id !in marks
  {}

  lemma MarkKeepsHandler(s: State, marks: map<EventId, nat>)
    requires HandlerInv(s) && s.phase.Sent? && s.log[s.position].id in marks
    requires forall id <- s.marks :: id in marks
    ensures HandlerInv(s.(marks := marks, phase := Done(true)))
  {}

  lemma MarkKeepsInv(s: State)
    requires Inv(s)
    ensures Inv(Step(s, Mark))
  {
    if s.phase.Sent? {
      assert RecordMatches(s.rows, s.log[s.position], s.position, s.marks, s.inserts);
      MarkFinds(s.rows, s.log, s.sends, s.marks, s.position);
      var id := s.log[s.position].id;
      if id in s.marks {
        MarkKeepsHandler(s, s.marks);
      } else {
        FirstMarkKeepsInv(s, id);
      }
    }
  }

  lemma FirstMarkKeepsInv(s: State, id: EventId)
    requires Inv(s) && s.phase.Sent? && id == s.log[s.position].id
    requires id in s.rows && s.rows[id].status.PENDING? && id !in s.marks
    ensures Inv(Step(s, Mark))
  {
    var t := Step(s, Mark);
    var r := t.log[|s.log|];
    var appended := s.(rows := t.rows, log := t.log);
    AppendKeepsHandler(s, appended, r);
    MarkKeepsHandler(appended, t.marks);
    AppendCounts(s.log, r, s.position);
    MarkMatches(s.rows, s.log, s.marks, s.inserts, id, s.position);
    FirstMarkKeepsMarks(s.rows, s.log, s.sends, s.marks, s.position);
  }

  lemma FirstMarkKeepsMarks(rows: map<EventId, Row>, log: seq<Record>, sends: seq<nat>, marks: map<EventId, nat>,
                            o: nat)
    requires MarksOk(rows, log, sends, marks)
    requires o in sends && o < |log| && log[o].Doc? && log[o].id in rows
    ensures var row := rows[log[o].id].(status := SENT);
            MarksOk(rows[log[o].id := row], log + [Doc(log[o].id, row.topic, SENT)], sends, marks[log[o].id := o])
  {}

  lemma CommitKeepsHandler(s: State)
    requires HandlerInv(s) && s.phase.Done?
    ensures HandlerInv(Step(s, CommitOffset))
  {}

  lemma CommitKeepsInv(s: State)
    requires Inv(s)
    ensures Inv(Step(s, CommitOffset))
  {
    if s.phase.Done? {
      CommitKeepsHandler(s);
      CommitCounts(s);
    }
  }

  lemma CommitCounts(s: State)
    requires Positioned(s) && Counted(s) && s.phase.Done?
    ensures Counted(Step(s, CommitOffset))
  {}

  lemma CrashKeepsInv(s: State)
    requires Inv(s)
    ensures Inv(Step(s, Crash))
  {}

  lemma StepKeepsInv(s: State, a: Action)
    requires Inv(s)
    ensures Inv(Step(s, a))
  {
    match a
    case Insert(id, topic, pending) => InsertKeepsInv(s, id, topic, pending);
    case Noise(g) => NoiseKeepsInv(s, g);
    case Join => JoinKeepsInv(s);
    case Handle => HandleKeepsInv(s);
    case Mark => MarkKeepsInv(s);
    case CommitOffset => CommitKeepsInv(s);
    case Crash => CrashKeepsInv(s);
  }

  lemma {:induction false} EveryRunInv(s: State, acts: seq<Action>)
    requires Inv(s)
    ensures Inv(Exec(s, acts))
    decreases |acts|
  {
    if acts != [] {
      StepKeepsInv(s, acts[0]);
      EveryRunInv(Step(s, acts[0]), acts[1..]);
    }
  }

  // ---- What every run of the router guarantees ----

  lemma InitInv()
    ensures Inv(INIT)
  {}

  /** At least once: when the stored offset has passed a routable PENDING record of the group's own
      time, the record was produced and its row is SENT, whatever crashed in between. */
  lemma PassedMeansProduced(acts: seq<Action>, o: nat)
    requires var s := Exec(INIT, acts);
             s.committed.Some? && s.base <= o < s.committed.value && o < |s.log| && Routable(s.log[o])
    ensures var s := Exec(INIT, acts);
            && o in s.sends
            && s.log[o].id in s.rows && s.rows[s.log[o].id].status.SENT?
  {
    InitInv();
    EveryRunInv(INIT, acts);
    var s := Exec(INIT, acts);
    assert RecordMatches(s.rows, s.log[o], o, s.marks, s.inserts);
  }

  /** A row is SENT only after it was produced. */
  lemma SentMeansProduced(acts: seq<Action>, id: EventId) returns (o: nat)
    requires var s := Exec(INIT, acts); id in s.rows && s.rows[id].status.SENT?
    ensures var s := Exec(INIT, acts);
            o in s.sends && o < |s.log| && Routable(s.log[o]) && s.log[o].id == id
  {
    InitInv();
    EveryRunInv(INIT, acts);
    var s := Exec(INIT, acts);
    o := s.marks[id];
    assert o in s.sends;
  }

  /** Records leave in the order of the change topic; only a crash can repeat one. */
  lemma ProducedInLogOrder(acts: seq<Action>)
    ensures var s := Exec(INIT, acts);
            && Ordered(s.sends)
            && (s.crashes == 0 ==> forall i, j :: 0 <= i < j < |s.sends| ==> s.sends[i] < s.sends[j])
            && forall o <- s.sends :: o < |s.log| && Routable(s.log[o])
  {
    InitInv();
    EveryRunInv(INIT, acts);
  }

  function IdsBelow(log: seq<Record>, n: nat): set<EventId>
    requires n <= |log|
  {
    if n == 0 then {} else IdsBelow(log, n - 1) + if Routable(log[n - 1]) then {log[n - 1].id} else {}
  }

  lemma {:induction false} RoutableAreRows(s: State, n: nat)
    requires DataInv(s) && n <= |s.log|
    ensures IdsBelow(s.log, n) <= s.rows.Keys
    ensures forall id <- IdsBelow(s.log, n) :: id in s.inserts && s.inserts[id] < n
    ensures RoutableBelow(s.log, n) == |IdsBelow(s.log, n)|
  {
    if n > 0 {
      RoutableAreRows(s, n - 1);
      if Routable(s.log[n - 1]) {
        assert RecordMatches(s.rows, s.log[n - 1], n - 1, s.marks, s.inserts);
      }
    }
  }

  lemma SubsetSize<T>(a: set<T>, b: set<T>)
    requires a <= b
    ensures |a| <= |b|
  {
    assert b == a + (b - a);
  }

  /** The router's own updates never cause a produce: there are at most as many as rows, and one
      more for each crash. */
  lemma ProducesAreBounded(acts: seq<Action>)
    ensures var s := Exec(INIT, acts);
            |s.sends| <= |IdsBelow(s.log, |s.log|)| + s.crashes <= |s.rows| + s.crashes
  {
    InitInv();
    EveryRunInv(INIT, acts);
    var s := Exec(INIT, acts);
    SendsAreRoutable(s);
    RoutableAreRows(s, |s.log|);
    SubsetSize(IdsBelow(s.log, |s.log|), s.rows.Keys);
  }

  lemma SendsAreRoutable(s: State)
    requires Positioned(s) && Counted(s)
    ensures |s.sends| <= RoutableBelow(s.log, |s.log|) + s.crashes
  {
    RoutableBelowMonotone(s.log, if InFlight(s.phase) then s.position + 1 else s.position, |s.log|);
  }

  /** A row causes at most two change records: its insertion and its marking. */
  lemma TrafficIsAtMostTwice(acts: seq<Action>)
    ensures var s := Exec(INIT, acts);
            DocsIn(s.log) == |s.rows| + |s.marks| <= 2 * |s.rows|
  {
    InitInv();
    EveryRunInv(INIT, acts);
    var s := Exec(INIT, acts);
    SubsetSize(s.marks.Keys, s.rows.Keys);
  }

  // ---- What the first session can miss ----

  lemma StepNeverGoesBack(s: State, a: Action, o: nat)
    requires Positioned(s) && s.committed.Some? && o < s.base && o !in s.sends
    ensures Step(s, a).committed.Some? && Step(s, a).base == s.base && o !in Step(s, a).sends
  {}

  /** Once an offset is stored, a record before the session that stored it is never produced
      any more. */
  lemma {:induction false} MissedForGood(s: State, acts: seq<Action>, o: nat)
    requires Inv(s) && s.committed.Some? && o < s.base && o !in s.sends
    ensures o !in Exec(s, acts).sends
    decreases |acts|
  {
    if acts != [] {
      StepKeepsInv(s, acts[0]);
      StepNeverGoesBack(s, acts[0], o);
      MissedForGood(Step(s, acts[0]), acts[1..], o);
    }
  }

  /** Some continuation of the run produces the record at the offset, or it has been produced. */
  ghost predicate EverProduced(s: State, o: nat) { exists future :: o in Exec(s, future).sends }

  /** Once an offset is stored, a routable PENDING record behind it is ever produced if and only if it
      lies in the group's own time, or an earlier session happened to produce it. */
  lemma PassedIsProducedIff(acts: seq<Action>, o: nat)
    requires var s := Exec(INIT, acts);
             s.committed.Some? && o < s.committed.value && o < |s.log| && Routable(s.log[o])
    ensures var s := Exec(INIT, acts);
            EverProduced(s, o) <==> o >= s.base || o in s.sends
  {
    var s := Exec(INIT, acts);
    InitInv();
    EveryRunInv(INIT, acts);
    if o >= s.base { PassedMeansProduced(acts, o); }
    if o in s.sends { assert o in Exec(s, []).sends; }
    if o < s.base && o !in s.sends {
      forall future ensures o !in Exec(s, future).sends {
        MissedForGood(s, future, o);
      }
    }
  }

  lemma ExecCons(s: State, a: Action, rest: seq<Action>)
    ensures Exec(s, [a] + rest) == Exec(Step(s, a), rest)
  {
    assert ([a] + rest)[1..] == rest;
  }

  function MissingRun(id: EventId): seq<Action> {
    [Join, Insert(id, "auth.events", true), Crash] + ([Join, Noise(true), Handle] + [CommitOffset])
  }

  lemma MissingRunEnds(id: EventId)
    ensures Exec(INIT, MissingRun(id)) ==
              State(map[id := Row("auth.events", PENDING)], [Doc(id, "auth.events", PENDING), Garbage],
                    Some(2), 2, Idle, [], map[], map[id := 0], 1, 1)
  {
    var s1 := Step(Step(Step(INIT, Join), Insert(id, "auth.events", true)), Crash);
    ExecThree(INIT, Join, Insert(id, "auth.events", true), Crash, [Join, Noise(true), Handle] + [CommitOffset]);
    ExecThree(s1, Join, Noise(true), Handle, [CommitOffset]);
    assert s1.log == [Doc(id, "auth.events", PENDING)];
  }

  /** A group that crashes before it stores its first offset seeks to the end again: an event that came
      meanwhile stays PENDING for good. */
  lemma FirstSessionCanMiss(id: EventId, future: seq<Action>)
    ensures var s := Exec(INIT, MissingRun(id));
            && s.committed == Some(2) && |s.log| == 2
            && Routable(s.log[0]) && s.log[0].id == id && id in s.rows && s.rows[id].status.PENDING?
            && 0 !in Exec(s, future).sends
  {
    MissingRunEnds(id);
    InitInv();
    EveryRunInv(INIT, MissingRun(id));
    MissedForGood(Exec(INIT, MissingRun(id)), future, 0);
  }

  lemma ExecThree(s: State, a: Action, b: Action, c: Action, rest: seq<Action>)
    ensures Exec(s, [a, b, c] + rest) == Exec(Step(Step(Step(s, a), b), c), rest)
  {
    assert [a, b, c] + rest == [a] + ([b] + ([c] + rest));
    ExecCons(s, a, [b] + ([c] + rest));
    ExecCons(Step(s, a), b, [c] + rest);
    ExecCons(Step(Step(s, a), b), c, rest);
  }

  // ---- The handler as the source has it ----

  /** Where `eachMessage` stops early. */
  datatype Fault = NoFault | SendThrows | UpdateThrows | CommitThrows

  /** The steps one delivery takes. */
  function HandlerSteps(r: Record, f: Fault): seq<Action> {
    if !Routable(r) then (if f.CommitThrows? then [Handle, Crash] else [Handle, CommitOffset])
    else
      match f
      case SendThrows => [Crash]
      case UpdateThrows => [Handle, Crash]
      case CommitThrows => [Handle, Mark, Crash]
      case NoFault => [Handle, Mark, CommitOffset]
  }

  datatype Message = Message(topic: string, id: EventId)

  /** The produced messages are the records at the offsets of the history. */
  predicate ProducedAre(produced: seq<Message>, sends: seq<nat>, log: seq<Record>) {
    && |produced| == |sends|
    && forall i :: 0 <= i < |sends| ==> IsRecord(produced[i], sends[i], log)
  }

  predicate IsRecord(m: Message, o: nat, log: seq<Record>) {
    o < |log| && log[o].Doc? && m == Message(log[o].topic, log[o].id)
  }

  lemma ProducedAreStill(produced: seq<Message>, sends: seq<nat>, log: seq<Record>, more: seq<Record>)
    requires ProducedAre(produced, sends, log)
    ensures ProducedAre(produced, sends, log + more)
  {
    forall i | 0 <= i < |sends| ensures IsRecord(produced[i], sends[i], log + more) {
      assert IsRecord(produced[i], sends[i], log);
    }
  }

  /** What the steps of one delivery amount to. */
  function Delivered(s: State, f: Fault): State
    requires s.position < |s.log|
  {
    if !Routable(s.log[s.position]) then Step(Step(s, Handle), if f.CommitThrows? then Crash else CommitOffset)
    else
      match f
      case SendThrows => Step(s, Crash)
      case UpdateThrows => Step(Step(s, Handle), Crash)
      case CommitThrows => Step(Step(Step(s, Handle), Mark), Crash)
      case NoFault => Step(Step(Step(s, Handle), Mark), CommitOffset)
  }

  lemma DeliveredIsExec(s: State, f: Fault)
    requires s.position < |s.log|
    ensures Exec(s, HandlerSteps(s.log[s.position], f)) == Delivered(s, f)
  {
    var acts := HandlerSteps(s.log[s.position], f);
    if |acts| > 1 {
      assert acts == [acts[0]] + ([acts[1]] + acts[2..]);
      ExecCons(s, acts[0], [acts[1]] + acts[2..]);
      ExecCons(Step(s, acts[0]), acts[1], acts[2..]);
      if |acts| == 3 { ExecCons(Step(Step(s, acts[0]), acts[1]), acts[2], []); }
    }
  }

  class Router {
    var rows: map<EventId, Row>
    var cdc: seq<Record>
    var offset: Option<nat>
    var produced: seq<Message>
    ghost var position: nat
    ghost var phase: Phase
    ghost var sends: seq<nat>
    ghost var marks: map<EventId, nat>
    ghost var inserts: map<EventId, nat>
    ghost var base: nat
    ghost var crashes: nat

    ghost function View(): State reads this {
      State(rows, cdc, offset, position, phase, sends, marks, inserts, base, crashes)
    }

    /** What the target topics hold is what the run's history says. */
    ghost predicate Valid() reads this { ProducedAre(produced, sends, cdc) }

    /** One delivery: the branches of the source in its order, stopped by a fault. */
    method EachMessage(at: nat, fault: Fault)
      requires Valid() && phase.Idle? && position == at < |cdc|
      modifies this
      ensures Valid()
      ensures View() == Exec(old(View()), HandlerSteps(old(cdc)[at], fault))
      ensures produced == old(produced) +
                (var r := old(cdc)[at];
                 if Routable(r) && !fault.SendThrows? then [Message(r.topic, r.id)] else [])
    {
      DeliveredIsExec(View(), fault);
      var r := cdc[at];
      if !r.Doc? || !r.status.PENDING? || r.topic !in ROUTED_TOPICS {
        phase := Done(false);
      } else {
        if fault.SendThrows? {
          Stop();
          return;
        }
        Send(r);
        if fault.UpdateThrows? {
          Stop();
          return;
        }
        UpdateOne(r.id);
      }
      if fault.CommitThrows? {
        Stop();
        return;
      }
      Commit(at);
    }

    method Send(r: Record)
      requires Valid() && phase.Idle? && position < |cdc| && cdc[position] == r && Routable(r)
      modifies this
      ensures Valid() && View() == Step(old(View()), Handle)
      ensures produced == old(produced) + [Message(r.topic, r.id)]
    {
      produced := produced + [Message(r.topic, r.id)];
      sends, phase := sends + [position], Sent;
    }

    method Commit(at: nat)
      requires Valid() && phase.Done? && position == at
      modifies this
      ensures Valid() && View() == Step(old(View()), CommitOffset) && produced == old(produced)
    {
      offset := Some(at + 1);
      position, phase := at + 1, Idle;
    }

    /** The handler throws: the consumer starts over from the stored offset. */
    method Stop()
      requires Valid() && !phase.Down?
      modifies this
      ensures Valid() && View() == Step(old(View()), Crash) && produced == old(produced)
    {
      phase, crashes := Down, crashes + 1;
    }

    /** The update guarded by status PENDING; the collection's change record follows it. */
    method UpdateOne(id: EventId)
      requires Valid() && phase.Sent? && position < |cdc| && cdc[position].Doc? && cdc[position].id == id
      modifies this
      ensures Valid() && View() == Step(old(View()), Mark) && produced == old(produced)
    {
      if id in rows && rows[id].status.PENDING? {
        ProducedAreStill(produced, sends, cdc, [Doc(id, rows[id].topic, SENT)]);
        cdc := cdc + [Doc(id, rows[id].topic, SENT)];
        rows := rows[id := rows[id].(status := SENT)];
        marks := marks[id := position];
      }
      phase := Done(true);
    }
  }
}
