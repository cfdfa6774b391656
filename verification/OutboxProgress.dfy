/** Where an outbox router gets to when it is left alone: the end of the change topic, with every event of
    its own time produced and marked (debezium.outboxrouter.ts). */
module OutboxProgress {
  import opened Collections
  import opened OutboxRouter

  predicate IsWork(a: Action) { a.Handle? || a.Mark? || a.CommitOffset? }

  /** The records that are still to be routed. */
  function ToRoute(s: State): int
    requires s.position <= |s.log|
  {
    RoutableBelow(s.log, |s.log|) - RoutableBelow(s.log, s.position)
  }

  lemma ToRouteIsNatural(s: State)
    requires s.position <= |s.log|
    ensures ToRoute(s) >= 0
  {
    RoutableBelowMonotone(s.log, s.position, |s.log|);
  }

  /** What a marking update adds to the topic is nothing to route. */
  ghost predicate AtMostOneMore(log: seq<Record>, log': seq<Record>) {
    log' == log || exists d: Record :: !Routable(d) && log' == log + [d]
  }

  lemma PassesOver(s: State)
    requires s.phase.Idle? && s.position < |s.log| && !Routable(s.log[s.position])
    ensures Delivered(s, NoFault) ==
              s.(committed := Some(s.position + 1), position := s.position + 1, phase := Idle)
  {}

  lemma MarkAddsOne(s: State)
    requires s.phase.Sent? && s.position < |s.log| && s.log[s.position].Doc?
    ensures var t := Step(s, Mark);
            && t == s.(rows := t.rows, log := t.log, marks := t.marks, phase := Done(true))
            && AtMostOneMore(s.log, t.log)
  {
    var id := s.log[s.position].id;
    if id in s.rows { assert !Routable(Doc(id, s.rows[id].topic, SENT)); }
  }

  lemma RoutesOne(s: State)
    requires s.phase.Idle? && s.position < |s.log| && Routable(s.log[s.position])
    ensures var t := Delivered(s, NoFault);
            && t.phase.Idle? && t.position == s.position + 1 && t.base == s.base && t.crashes == s.crashes
            && t.sends == s.sends + [s.position] && AtMostOneMore(s.log, t.log)
  {
    var sent := s.(phase := Sent, sends := s.sends + [s.position]);
    assert Step(s, Handle) == sent;
    MarkAddsOne(sent);
  }

  lemma DeliveryKeepsInv(s: State)
    requires Inv(s) && s.position < |s.log|
    ensures Inv(Delivered(s, NoFault))
  {
    DeliveredIsExec(s, NoFault);
    EveryRunInv(s, HandlerSteps(s.log[s.position], NoFault));
  }

  lemma NothingMoreToRoute(log: seq<Record>, log': seq<Record>, p: nat)
    requires AtMostOneMore(log, log') && p < |log|
    ensures log <= log' && RoutableBelow(log', |log'|) == RoutableBelow(log, |log|)
    ensures RoutableBelow(log', p + 1) == RoutableBelow(log, p) + if Routable(log[p]) then 1 else 0
  {
    if log' != log {
      var d :| !Routable(d) && log' == log + [d];
      RoutableBelowPrefix(log, [d], |log|);
      RoutableBelowPrefix(log, [d], p + 1);
    }
  }

  /** Whatever was produced on the way was to be routed before and is not any more. */
  predicate Forward(s: State, t: State) {
    && s.position <= |s.log| <= |t.log| && t.position <= |t.log|
    && t.phase.Idle? && s.log <= t.log && t.base == s.base && t.crashes == s.crashes
    && |t.sends| + ToRoute(t) == |s.sends| + ToRoute(s)
  }

  /** One delivery without a fault routes one record, or passes over one. */
  lemma OneRecordLess(s: State)
    requires s.phase.Idle? && s.position < |s.log|
    ensures var t := Delivered(s, NoFault);
            && Forward(s, t)
            && (ToRoute(t) < ToRoute(s) ||
                (ToRoute(t) == ToRoute(s) && |t.log| - t.position < |s.log| - s.position))
  {
    var t := Delivered(s, NoFault);
    if Routable(s.log[s.position]) { RoutesOne(s); } else { PassesOver(s); }
    NothingMoreToRoute(s.log, t.log, s.position);
  }

  lemma {:induction false} ExecAppend(s: State, xs: seq<Action>, ys: seq<Action>)
    ensures Exec(s, xs + ys) == Exec(Exec(s, xs), ys)
    decreases |xs|
  {
    if xs == [] {
      assert xs + ys == ys;
    } else {
      assert xs + ys == [xs[0]] + (xs[1..] + ys);
      ExecCons(s, xs[0], xs[1..] + ys);
      ExecAppend(Step(s, xs[0]), xs[1..], ys);
    }
  }

  /** Undisturbed work leads from one state to the other. */
  ghost predicate WorksTo(s: State, t: State) { exists acts :: (forall a <- acts :: IsWork(a)) && Exec(s, acts) == t }

  lemma WorksOn(s: State, m: State, t: State)
    requires WorksTo(s, m) && WorksTo(m, t)
    ensures WorksTo(s, t)
  {
    var xs :| (forall a <- xs :: IsWork(a)) && Exec(s, xs) == m;
    var ys :| (forall a <- ys :: IsWork(a)) && Exec(m, ys) == t;
    ExecAppend(s, xs, ys);
    assert forall a <- xs + ys :: IsWork(a);
  }

  lemma DeliveryIsWork(s: State)
    requires s.position < |s.log|
    ensures WorksTo(s, Delivered(s, NoFault))
  {
    DeliveredIsExec(s, NoFault);
    assert forall a <- HandlerSteps(s.log[s.position], NoFault) :: IsWork(a);
  }

  /** The router catches up, although each record it routes adds one to the topic. */
  lemma {:induction false} CatchesUp(s: State) returns (t: State)
    requires Inv(s) && s.phase.Idle?
    ensures WorksTo(s, t) && Inv(t) && Forward(s, t) && t.position == |t.log|
    decreases ToRoute(s), |s.log| - s.position
  {
    if s.position == |s.log| {
      t := s;
      assert Exec(s, []) == s;
    } else {
      var m := Delivered(s, NoFault);
      OneRecordLess(s);
      DeliveryKeepsInv(s);
      ToRouteIsNatural(m);
      DeliveryIsWork(s);
      t := CatchesUp(m);
      WorksOn(s, m, t);
    }
  }

  // ---- Every row has its first record ----

  predicate FirstRecord(s: State, id: EventId)
    requires id in s.rows
  {
    && id in s.inserts && s.inserts[id] < |s.log|
    && s.log[s.inserts[id]].Doc? && s.log[s.inserts[id]].id == id && s.log[s.inserts[id]].topic == s.rows[id].topic
    && (s.rows[id].status.PENDING? ==> s.log[s.inserts[id]].status.PENDING?)
  }

  predicate FirstRecords(s: State) { forall id <- s.rows :: FirstRecord(s, id) }

  lemma StepKeepsFirstRecords(s: State, a: Action)
    requires FirstRecords(s)
    ensures FirstRecords(Step(s, a))
  {
    var t := Step(s, a);
    forall id | id in t.rows ensures FirstRecord(t, id) {
      if id in s.rows { assert FirstRecord(s, id); }
    }
  }

  lemma {:induction false} RunKeepsFirstRecords(s: State, acts: seq<Action>)
    requires FirstRecords(s)
    ensures FirstRecords(Exec(s, acts))
    decreases |acts|
  {
    if acts != [] {
      StepKeepsFirstRecords(s, acts[0]);
      RunKeepsFirstRecords(Step(s, acts[0]), acts[1..]);
    }
  }

  /** From every reachable state with a session open, undisturbed work reaches the end of the topic; then each
      event inserted since the group's own time began, whose topic is routed, is SENT, and every record that was
      still to be routed has been produced once more and no other. */
  lemma LeftAloneItRoutesAll(acts: seq<Action>) returns (t: State)
    requires Exec(INIT, acts).phase.Idle?
    ensures var s := Exec(INIT, acts);
            && WorksTo(s, t) && t.position == |t.log| && s.position <= |s.log|
            && |t.sends| == |s.sends| + ToRoute(s)
            && forall id <- s.rows ::
                 && id in s.inserts
                 && (s.rows[id].status.PENDING? && s.rows[id].topic in ROUTED_TOPICS && s.inserts[id] >= s.base ==>
                       id in t.rows && t.rows[id].status.SENT?)
  {
    var s := Exec(INIT, acts);
    InitInv();
    EveryRunInv(INIT, acts);
    RunKeepsFirstRecords(INIT, acts);
    t := CatchesUp(s);
    forall id | id in s.rows
      ensures id in s.inserts
      ensures s.rows[id].status.PENDING? && s.rows[id].topic in ROUTED_TOPICS && s.inserts[id] >= s.base ==>
                id in t.rows && t.rows[id].status.SENT?
    {
      assert FirstRecord(s, id);
      var o := s.inserts[id];
      assert t.log[o] == s.log[o];
      if Routable(s.log[o]) && o >= s.base {
        assert t.log[o].id in t.marks;
        assert RecordMatches(t.rows, t.log[o], o, t.marks, t.inserts);
      }
    }
  }
}
