/** The revoke-all branch as a whole: a loop over the sessions that refreshes, logins and other
    revocations interrupt anywhere, and what leads a displaced token into it
    (authservice.ts, session.helper.ts). */
module RevokeAll {
  import opened Collections
  import opened RefreshRotation
  import opened RefreshTheorems

  /** A known hash is current on no active session outside ds, and no request is about to install it. */
  predicate OnlyOn(s: State, h: Hash, ds: set<Device>) {
    && h < s.next
    && (forall e <- s.sessions :: s.sessions[e] == Session(h, true) ==> e in ds)
    && (forall r <- s.requests :: s.requests[r].phase.Swapping? ==> s.requests[r].phase.issued != h)
  }

  /** A hash never comes back to a place where it is not current. */
  lemma StepKeepsOnlyOn(s: State, a: Action, h: Hash, ds: set<Device>)
    requires OnlyOn(s, h, ds)
    ensures OnlyOn(Step(s, a), h, ds)
  {}

  /** The request is working through its list: what was current on a device when the list was made is
      current at most there, and only while the device is still on the list. */
  predicate WorkingThrough(s: State, r: RequestId, start: map<Device, Session>) {
    && r in s.requests && s.requests[r].phase.Revoking?
    && forall d <- start :: OnlyOn(s, start[d].hash, s.requests[r].phase.todo * {d})
  }

  lemma ListIsMade(s: State, r: RequestId, up: bool)
    requires Inv(s)
    requires Revokes(s, r, CheckMarker(r, up))
    ensures WorkingThrough(Step(s, CheckMarker(r, up)), r, s.sessions)
  {
    var t := Step(s, CheckMarker(r, up));
    forall d | d in s.sessions ensures OnlyOn(t, s.sessions[d].hash, t.requests[r].phase.todo * {d}) {
      var h := s.sessions[d].hash;
      assert SessionOk(s, d);
      forall q | q in t.requests && t.requests[q].phase.Swapping? ensures t.requests[q].phase.issued != h {
        assert RequestOk(s, q);
      }
    }
  }

  /** Taking a device off the list makes its old hash current nowhere. */
  lemma RevokingOne(s: State, r: RequestId, d: Device, start: map<Device, Session>)
    requires WorkingThrough(s, r, start) && d in s.requests[r].phase.todo
    ensures WorkingThrough(Step(s, RevokeNext(r, d)), r, start)
  {
    var t := Step(s, RevokeNext(r, d));
    var todo := s.requests[r].phase.todo;
    forall c | c in start ensures OnlyOn(t, start[c].hash, t.requests[r].phase.todo * {c}) {
      assert OnlyOn(s, start[c].hash, todo * {c});
      StepKeepsOnlyOn(s, RevokeNext(r, d), start[c].hash, todo * {c});
      if c != d { assert (todo - {d}) * {c} == todo * {c}; }
    }
  }

  lemma StepKeepsWorking(s: State, a: Action, r: RequestId, start: map<Device, Session>)
    requires WorkingThrough(s, r, start) && a != Drop(r)
    ensures WorkingThrough(Step(s, a), r, start)
  {
    if a.RevokeNext? && a.r == r && a.d in s.requests[r].phase.todo {
      RevokingOne(s, r, a.d, start);
    } else {
      assert Step(s, a).requests[r] == s.requests[r];
      forall d | d in start ensures OnlyOn(Step(s, a), start[d].hash, s.requests[r].phase.todo * {d}) {
        StepKeepsOnlyOn(s, a, start[d].hash, s.requests[r].phase.todo * {d});
      }
    }
  }

  lemma {:induction false} RunKeepsWorking(s: State, acts: seq<Action>, r: RequestId, start: map<Device, Session>)
    requires WorkingThrough(s, r, start) && Drop(r) !in acts
    ensures WorkingThrough(Exec(s, acts), r, start)
    decreases |acts|
  {
    if acts != [] {
      assert acts[0] in acts;
      StepKeepsWorking(s, acts[0], r, start);
      RunKeepsWorking(Step(s, acts[0]), acts[1..], r, start);
    }
  }

  lemma {:induction false} GoneIsNeverExchanged(s: State, acts: seq<Action>, h: Hash)
    requires OnlyOn(s, h, {})
    ensures s.exchanges <= Exec(s, acts).exchanges
    ensures forall i :: |s.exchanges| <= i < |Exec(s, acts).exchanges| ==> Exec(s, acts).exchanges[i].before != h
    decreases |acts|
  {
    if acts != [] {
      var t := Step(s, acts[0]);
      StepKeepsOnlyOn(s, acts[0], h, {});
      assert s.exchanges <= t.exchanges;
      assert forall i :: |s.exchanges| <= i < |t.exchanges| ==> t.exchanges[i].before != h;
      GoneIsNeverExchanged(t, acts[1..], h);
    }
  }

  /** Revoke-all is final: a request enters the branch, its loop runs to the end while anything else
      happens, and then no token that was current on any device when it entered is ever exchanged
      again, although sessions may have been rotated, displaced or reactivated meanwhile. */
  lemma RevokeAllIsFinal(now: int, before: seq<Action>, r: RequestId, up: bool, meanwhile: seq<Action>,
                         after: seq<Action>, d: Device)
    requires Revokes(Exec(Init(now), before), r, CheckMarker(r, up))
    requires Drop(r) !in meanwhile
    requires var s := Exec(Step(Exec(Init(now), before), CheckMarker(r, up)), meanwhile);
             r in s.requests && s.requests[r].phase == Revoking({})
    requires d in Exec(Init(now), before).sessions
    ensures var h := Exec(Init(now), before).sessions[d].hash;
            var s := Exec(Step(Exec(Init(now), before), CheckMarker(r, up)), meanwhile);
            var t := Exec(s, after);
            && s.exchanges <= t.exchanges
            && forall i :: |s.exchanges| <= i < |t.exchanges| ==> t.exchanges[i].before != h
  {
    var s0 := Exec(Init(now), before);
    EveryRunInv(now, before);
    ListIsMade(s0, r, up);
    var s1 := Step(s0, CheckMarker(r, up));
    RunKeepsWorking(s1, meanwhile, r, s0.sessions);
    var s2 := Exec(s1, meanwhile);
    assert s2.requests[r].phase.todo * {d} == {};
    GoneIsNeverExchanged(s2, after, s0.sessions[d].hash);
  }

  // ---- Tokens that a login displaced ----

  lemma LoginDisplaces(s: State, d: Device)
    requires Inv(s) && d in s.sessions
    ensures OnlyOn(Step(s, Login(d)), s.sessions[d].hash, {})
  {
    var t, h := Step(s, Login(d)), s.sessions[d].hash;
    assert SessionOk(s, d);
    forall q | q in t.requests && t.requests[q].phase.Swapping? ensures t.requests[q].phase.issued != h {
      assert RequestOk(s, q);
    }
  }

  lemma {:induction false} RunKeepsOnlyOn(s: State, acts: seq<Action>, h: Hash, ds: set<Device>)
    requires OnlyOn(s, h, ds)
    ensures OnlyOn(Exec(s, acts), h, ds)
    decreases |acts|
  {
    if acts != [] {
      StepKeepsOnlyOn(s, acts[0], h, ds);
      RunKeepsOnlyOn(Step(s, acts[0]), acts[1..], h, ds);
    }
  }

  lemma PresentedElsewhere(u: State, d: Device, h: Hash, q: RequestId)
    requires OnlyOn(u, h, {}) && q !in u.requests && d in u.sessions && u.sessions[d].active
    ensures Exec(u, [Present(q, d, h), Read(q)]) == u.(requests := u.requests[q := Request(d, h, CheckingMarker)])
  {
    ExecPair(u, Present(q, d, h), Read(q));
    assert u.sessions[d] != Session(h, true);
  }

  /** A token that a login displaced, presented at any later time while the device's session is active,
      revokes every session if and only if no refresh had marked it shortly before: the promise of the
      grace period covers tokens that were being rotated only. */
  lemma DisplacedByLoginIsReuse(now: int, before: seq<Action>, d: Device, after: seq<Action>, q: RequestId)
    requires d in Exec(Init(now), before).sessions
    requires var u := Exec(Step(Exec(Init(now), before), Login(d)), after);
             q !in u.requests && d in u.sessions && u.sessions[d].active
    ensures var h := Exec(Init(now), before).sessions[d].hash;
            var u := Exec(Step(Exec(Init(now), before), Login(d)), after);
            Revokes(Exec(u, [Present(q, d, h), Read(q)]), q, CheckMarker(q, true)) <==> !RecentMark(u, h)
  {
    var s := Exec(Init(now), before);
    var h := s.sessions[d].hash;
    EveryRunInv(now, before);
    LoginDisplaces(s, d);
    RunKeepsOnlyOn(Step(s, Login(d)), after, h, {});
    var u := Exec(Step(s, Login(d)), after);
    PresentedElsewhere(u, d, h, q);
    ExecCons(s, Login(d), after);
    ExecAppend(Init(now), before, [Login(d)] + after);
    RunKeepsMarks(Init(now), before + ([Login(d)] + after));
    AliveIffRecent(u, h);
    RevokesWhen(Exec(u, [Present(q, d, h), Read(q)]), q, CheckMarker(q, true));
  }
}
