/** The refresh endpoint and the session writes as the services perform them, in place. */
module RefreshService {
  import opened Collections
  import opened RefreshRotation
  import opened RefreshTheorems

  datatype Answer = Rotated(token: Hash) | InvalidToken | SessionRevoked | AlreadyRotated | ReuseDetected

  /** One refresh request that nobody interrupts. */
  function Uninterrupted(d: Device, token: Hash, up: bool): seq<Action> {
    [Present(0, d, token), Read(0), CheckMarker(0, up), Mark(0, up), Issue(0), Swap(0)]
  }

  /** The sessions of these devices are revoked one after the other. */
  function DeactivatedAll(s: State, ds: seq<Device>): State {
    if ds == [] then s else Deactivated(DeactivatedAll(s, ds[..|ds| - 1]), ds[|ds| - 1])
  }

  function RevokeSteps(ds: seq<Device>): seq<Action> {
    seq(|ds|, i requires 0 <= i < |ds| => RevokeNext(0, ds[i]))
  }

  /** A request that reaches the revoke-all branch and works through these devices. */
  function ReuseRun(d: Device, token: Hash, ds: seq<Device>): seq<Action> {
    [Present(0, d, token), Read(0)] + ([CheckMarker(0, true)] + (RevokeSteps(ds) + [Drop(0)]))
  }

  class AuthService {
    var now: int
    var sessions: map<Device, Session>
    var markers: map<Hash, int>
    var next: Hash
    ghost var exchanges: seq<Exchange>
    ghost var logins: set<(Device, Hash)>
    ghost var dead: set<Hash>
    ghost var marks: set<(Hash, int)>

    ghost function View(): State reads this {
      State(now, sessions, markers, next, map[], exchanges, logins, dead, marks)
    }

    constructor (now: int)
      ensures View() == Init(now)
    {
      this.now := now;
      sessions, markers, next := map[], map[], 0;
      exchanges, logins, dead, marks := [], {}, {}, {};
    }

    method Login(d: Device) returns (token: Hash)
      modifies this
      ensures View() == Step(old(View()), Action.Login(d)) && token == old(next)
      ensures d in sessions && sessions[d].active && sessions[d].hash == token < next
      ensures sessions == old(sessions)[d := sessions[d]] && markers == old(markers) && exchanges == old(exchanges)
    {
      token := next;
      next := next + 1;
      sessions := sessions[d := Session(token, true)];
      logins := logins + {(d, token)};
    }

    /** `revokeSessionFull`. */
    method RevokeSession(d: Device)
      modifies this
      ensures View() == Step(old(View()), Action.Revoke(d))
      ensures d in old(sessions) ==> sessions == old(sessions)[d := Session(old(sessions)[d].hash, false)]
      ensures d !in old(sessions) ==> sessions == old(sessions)
    {
      if d in sessions {
        dead := dead + {sessions[d].hash};
        sessions := sessions[d := sessions[d].(active := false)];
      }
    }

    /** `revokeAllSessionsFull` with its optional excluded device; `order` is the order it worked in. */
    method RevokeAllSessions(exclude: Option<Device>) returns (ghost order: seq<Device>)
      modifies this
      ensures View() == DeactivatedAll(old(View()), order) && Distinct(order)
      ensures forall d :: d in order <==> d in old(sessions) && exclude != Some(d)
      ensures sessions.Keys == old(sessions).Keys
      ensures forall d <- sessions :: d in old(sessions) &&
                sessions[d] == (if exclude == Some(d) then old(sessions)[d] else old(sessions)[d].(active := false))
      ensures forall d <- sessions :: exclude != Some(d) ==> sessions[d].hash in dead
    {
      order := [];
      var todo := sessions.Keys;
      while todo != {}
        invariant View() == DeactivatedAll(old(View()), order) && Distinct(order)
        invariant todo <= sessions.Keys == old(sessions).Keys
        invariant forall d :: d in order <==> d in old(sessions) && exclude != Some(d) && d !in todo
        invariant forall d <- sessions :: d in old(sessions) &&
                    sessions[d] == (if d in order then old(sessions)[d].(active := false) else old(sessions)[d])
        invariant forall d <- order :: d in sessions && sessions[d].hash in dead
        decreases todo
      {
        var d :| d in todo;
        if exclude != Some(d) {
          RevokeSession(d);
          assert (order + [d])[..|order|] == order;
          order := order + [d];
        }
        todo := todo - {d};
      }
    }

    /** A refresh that nobody interrupts rotates a current token, and is otherwise told apart by
        the session, the marker and the availability of Redis; only a token without a live marker
        revokes the user's sessions. */
    method RefreshToken(d: Device, token: Hash, redisUp: bool) returns (r: Answer, ghost revoked: seq<Device>)
      modifies this
      ensures r.InvalidToken? <==> token >= old(next)
      ensures token < old(next) ==> (r.SessionRevoked? <==> d !in old(sessions) || !old(sessions)[d].active)
      ensures r.Rotated? <==> token < old(next) && d in old(sessions) && old(sessions)[d] == Session(token, true)
      ensures r.Rotated? ==>
                && r.token == old(next)
                && sessions == old(sessions)[d := Session(r.token, true)]
                && (redisUp ==> MarkerAlive(View(), token))
      ensures r.ReuseDetected? ==> redisUp && !MarkerAlive(old(View()), token)
      ensures r.ReuseDetected? ==> sessions.Keys == old(sessions).Keys && forall c <- sessions :: !sessions[c].active
      ensures !r.ReuseDetected? && !r.Rotated? ==> View() == old(View())
      ensures !r.ReuseDetected? ==> View() == Exec(old(View()), Uninterrupted(d, token, redisUp))
      ensures r.ReuseDetected? ==>
                && View() == Exec(old(View()), ReuseRun(d, token, revoked))
                && Distinct(revoked) && forall c :: c in revoked <==> c in old(sessions)
    {
      revoked := [];
      ghost var before := View();
      Unfolded(before, d, token, redisUp);
      if token >= next {
        return InvalidToken, revoked;
      }
      if d !in sessions || !sessions[d].active {
        return SessionRevoked, revoked;
      }
      if token != sessions[d].hash {
        if !redisUp {
          return AlreadyRotated, revoked;
        }
        if token in markers && now < markers[token] {
          return AlreadyRotated, revoked;
        }
        revoked := RevokeAllSessions(None);
        ReuseRunEnds(before, d, token, revoked);
        return ReuseDetected, revoked;
      }
      if redisUp {
        markers := markers[token := now + GRACE_MS];
        marks := marks + {(token, now)};
      }
      var issued := next;
      next := next + 1;
      sessions := sessions[d := Session(issued, true)];
      exchanges := exchanges + [Exchange(d, token, issued, MarkIf(now, redisUp))];
      return Rotated(issued), revoked;
    }
  }

  /** The loop is the run of the machine's revoking steps. */
  lemma {:induction false} RevokeStepsEnd(s: State, q: Request, ds: seq<Device>, todo: set<Device>)
    requires s.requests == map[0 := q.(phase := Revoking(todo))]
    requires Distinct(ds) && forall d <- ds :: d in todo
    ensures Exec(s, RevokeSteps(ds)) ==
              DeactivatedAll(s.(requests := map[]), ds).(
              requests := map[0 := q.(phase := Revoking(todo - set d | d in ds))])
    decreases |ds|
  {
    if ds == [] {
      assert todo - (set d | d in ds) == todo;
    } else {
      var front, d := ds[..|ds| - 1], ds[|ds| - 1];
      assert ds == front + [d];
      RevokeStepsEnd(s, q, front, todo);
      assert RevokeSteps(ds) == RevokeSteps(front) + [RevokeNext(0, d)];
      ExecAppend(s, RevokeSteps(front), [RevokeNext(0, d)]);
      var t := Exec(s, RevokeSteps(front));
      assert [RevokeNext(0, d)] == [RevokeNext(0, d)] + [];
      ExecCons(t, RevokeNext(0, d), []);
      var done := set c | c in front;
      RevokeStep(DeactivatedAll(s.(requests := map[]), front), d, q, todo - done);
      assert (todo - done) - {d} == todo - set c | c in ds;
    }
  }

  lemma RevokeStep(s: State, d: Device, q: Request, todo: set<Device>)
    requires d in todo
    ensures Step(s.(requests := map[0 := q.(phase := Revoking(todo))]), RevokeNext(0, d)) ==
              Deactivated(s, d).(requests := map[0 := q.(phase := Revoking(todo - {d}))])
  {
    var t := s.(requests := map[0 := q.(phase := Revoking(todo))]);
    assert Goto(t, 0, Revoking(todo - {d})) == s.(requests := map[0 := q.(phase := Revoking(todo - {d}))]);
  }

  lemma {:induction false} DeactivatedAllIdle(s: State, ds: seq<Device>)
    ensures DeactivatedAll(s, ds).requests == s.requests
    decreases |ds|
  {
    if ds != [] { DeactivatedAllIdle(s, ds[..|ds| - 1]); }
  }

  /** The reuse branch, uninterrupted, is a run of the machine. */
  lemma ReuseRunEnds(s: State, d: Device, token: Hash, ds: seq<Device>)
    requires s.requests == map[] && token < s.next
    requires d in s.sessions && s.sessions[d].active && s.sessions[d].hash != token && !MarkerAlive(s, token)
    requires Distinct(ds) && forall c <- ds :: c in s.sessions
    ensures Exec(s, ReuseRun(d, token, ds)) == DeactivatedAll(s, ds)
  {
    var q := Request(d, token, Revoking(s.sessions.Keys));
    var tail := RevokeSteps(ds) + [Drop(0)];
    var s3 := s.(requests := map[0 := q]);
    ReuseBegins(s, d, token, tail);
    RevokeStepsEnd(s3, q, ds, s.sessions.Keys);
    ExecAppend(s3, RevokeSteps(ds), [Drop(0)]);
    assert [Drop(0)] == [Drop(0)] + [];
    ExecCons(Exec(s3, RevokeSteps(ds)), Drop(0), []);
    DeactivatedAllIdle(s, ds);
    assert s3.(requests := map[]) == s;
  }

  lemma ReuseBegins(s: State, d: Device, token: Hash, tail: seq<Action>)
    requires s.requests == map[] && token < s.next
    requires d in s.sessions && s.sessions[d].active && s.sessions[d].hash != token && !MarkerAlive(s, token)
    ensures Exec(s, [Present(0, d, token), Read(0)] + ([CheckMarker(0, true)] + tail)) ==
              Exec(s.(requests := map[0 := Request(d, token, Revoking(s.sessions.Keys))]), tail)
  {
    var rest := [CheckMarker(0, true)] + tail;
    assert [Present(0, d, token), Read(0)] + rest == [Present(0, d, token)] + ([Read(0)] + rest);
    Exec2(s, Present(0, d, token), Read(0), rest);
    ExecCons(Step(Step(s, Present(0, d, token)), Read(0)), CheckMarker(0, true), tail);
    ReuseSteps(s, d, token);
  }

  lemma ReuseSteps(s: State, d: Device, token: Hash)
    requires s.requests == map[] && token < s.next
    requires d in s.sessions && s.sessions[d].active && s.sessions[d].hash != token && !MarkerAlive(s, token)
    ensures Step(Step(Step(s, Present(0, d, token)), Read(0)), CheckMarker(0, true)) ==
              s.(requests := map[0 := Request(d, token, Revoking(s.sessions.Keys))])
  {
    var s1 := Step(s, Present(0, d, token));
    assert s1 == s.(requests := map[0 := Request(d, token, Reading)]);
    var s2 := Step(s1, Read(0));
    assert s2 == s.(requests := map[0 := Request(d, token, CheckingMarker)]);
    assert Step(s2, CheckMarker(0, true)) == Goto(s2, 0, Revoking(s.sessions.Keys));
  }

  lemma Claimed(s: State, d: Device, token: Hash, up: bool) returns (t: State)
    requires s.requests == map[]
    ensures t == Step(Step(Step(Step(s, Present(0, d, token)), Read(0)), CheckMarker(0, up)), Mark(0, up))
    ensures token >= s.next || d !in s.sessions || !s.sessions[d].active ==> t == s
    ensures token < s.next && d in s.sessions && token != s.sessions[d].hash && (!up || MarkerAlive(s, token)) ==>
              t == s
    ensures token < s.next && d in s.sessions && s.sessions[d] == Session(token, true) ==>
              t == s.(requests := map[0 := Request(d, token, Issuing(MarkIf(s.now, up)))],
                      markers := (if up then s.markers[token := s.now + GRACE_MS] else s.markers),
                      marks := if up then s.marks + {(token, s.now)} else s.marks)
  {
    var s1 := Step(s, Present(0, d, token));
    var s2 := Step(s1, Read(0));
    t := Step(Step(s2, CheckMarker(0, up)), Mark(0, up));
    if token >= s.next {
      assert s1 == s;
    } else {
      assert s1 == s.(requests := map[0 := Request(d, token, Reading)]);
      if d !in s.sessions || !s.sessions[d].active {
        assert s2 == s;
      } else if token != s.sessions[d].hash {
        assert s2 == s.(requests := map[0 := Request(d, token, CheckingMarker)]);
      } else {
        assert s2 == s.(requests := map[0 := Request(d, token, Marking)]);
      }
    }
  }

  lemma Swapped(s: State, d: Device, token: Hash, mark: Option<int>)
    requires s.requests == map[0 := Request(d, token, Issuing(mark))]
    requires d in s.sessions && s.sessions[d] == Session(token, true)
    ensures Step(Step(s, Issue(0)), Swap(0)) ==
            s.(sessions := s.sessions[d := Session(s.next, true)], next := s.next + 1, requests := map[],
               exchanges := s.exchanges + [Exchange(d, token, s.next, mark)])
  {
    assert Step(s, Issue(0)).requests == map[0 := Request(d, token, Swapping(mark, s.next))];
  }

  /** What the step machine does with an uninterrupted request on an otherwise idle system. */
  lemma Unfolded(s: State, d: Device, token: Hash, up: bool)
    requires s.requests == map[]
    ensures var t := Exec(s, Uninterrupted(d, token, up));
            if token >= s.next || d !in s.sessions || !s.sessions[d].active then t == s
            else if token != s.sessions[d].hash then (!up || MarkerAlive(s, token) ==> t == s)
            else t == s.(sessions := s.sessions[d := Session(s.next, true)], next := s.next + 1,
                         markers := (if up then s.markers[token := s.now + GRACE_MS] else s.markers),
                         marks := (if up then s.marks + {(token, s.now)} else s.marks),
                         exchanges := s.exchanges + [Exchange(d, token, s.next, MarkIf(s.now, up))])
  {
    var tail := [Issue(0), Swap(0)];
    assert Uninterrupted(d, token, up) == [Present(0, d, token), Read(0), CheckMarker(0, up), Mark(0, up)] + tail;
    Exec4(s, Present(0, d, token), Read(0), CheckMarker(0, up), Mark(0, up), tail);
    var t := Claimed(s, d, token, up);
    TailSteps(t);
    if token < s.next && d in s.sessions && s.sessions[d] == Session(token, true) {
      Swapped(t, d, token, MarkIf(s.now, up));
    }
  }

  lemma TailSteps(s: State)
    ensures Exec(s, [Issue(0), Swap(0)]) == Step(Step(s, Issue(0)), Swap(0))
  {
    assert [Issue(0), Swap(0)] == [Issue(0)] + ([Swap(0)] + []);
    ExecCons(s, Issue(0), [Swap(0)] + []);
    ExecCons(Step(s, Issue(0)), Swap(0), []);
  }
}
