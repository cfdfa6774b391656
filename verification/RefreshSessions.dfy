/** What a login gives its user: a session that stays active until somebody revokes it, and a token that can
    be exchanged as long as it is current (session.helper.ts, authservice.ts). */
module RefreshSessions {
  import opened Collections
  import opened RefreshRotation
  import opened RefreshTheorems

  // ---- Active means logged in and not revoked since ----

  /** The action revokes the device's session: a logout, or the step of a revoke-all for it. */
  predicate RevokesDevice(s: State, a: Action, d: Device) {
    || a == Revoke(d)
    || (a.RevokeNext? && a.d == d && a.r in s.requests && s.requests[a.r].phase.Revoking?
        && d in s.requests[a.r].phase.todo)
  }

  /** The run contains a login of the device, and behind it nothing that revokes the device. */
  predicate LoggedInSince(now: int, acts: seq<Action>, d: Device) {
    acts != [] &&
    var before, a := acts[..|acts| - 1], acts[|acts| - 1];
    a == Login(d) || (LoggedInSince(now, before, d) && !RevokesDevice(Exec(Init(now), before), a, d))
  }

  /** The run contains a login of the device, and behind it nothing that lets its session expire. */
  predicate StoredSince(acts: seq<Action>, d: Device) {
    acts != [] &&
    var a := acts[|acts| - 1];
    a == Login(d) || (StoredSince(acts[..|acts| - 1], d) && a != Expire(d))
  }

  lemma SessionStep(s: State, a: Action, d: Device)
    ensures d in Step(s, a).sessions <==> a == Login(d) || (d in s.sessions && a != Expire(d))
    ensures d in Step(s, a).sessions ==>
              (Step(s, a).sessions[d].active <==>
                 a == Login(d) || (s.sessions[d].active && !RevokesDevice(s, a, d)))
  {}

  /** In every run the stored sessions are those of the devices that logged in and did not expire since, and
      a stored session is active if and only if nothing has revoked its device since a login. */
  lemma {:induction false} ActiveIffLoggedInSince(now: int, acts: seq<Action>, d: Device)
    ensures d in Exec(Init(now), acts).sessions <==> StoredSince(acts, d)
    ensures d in Exec(Init(now), acts).sessions ==>
              (Exec(Init(now), acts).sessions[d].active <==> LoggedInSince(now, acts, d))
    decreases |acts|
  {
    if acts != [] {
      var before, a := acts[..|acts| - 1], acts[|acts| - 1];
      ActiveIffLoggedInSince(now, before, d);
      assert acts == before + [a];
      ExecAppend(Init(now), before, [a]);
      assert [a] == [a] + [];
      ExecCons(Exec(Init(now), before), a, []);
      SessionStep(Exec(Init(now), before), a, d);
    }
  }

  // ---- A current token can be exchanged ----

  /** A refresh of a device with a token, from its first read to its compare-and-set. */
  function Refresh(r: RequestId, d: Device, token: Hash, redisUp: bool): seq<Action> {
    [Present(r, d, token), Read(r), Mark(r, redisUp), Issue(r)] + [Swap(r)]
  }

  /** After it the device has the new token, and the exchange stands at the end of the history. */
  predicate Exchanged(s: State, t: State, d: Device, before: Hash, after: Hash, redisUp: bool) {
    && t.exchanges == s.exchanges + [Exchange(d, before, after, MarkIf(s.now, redisUp))]
    && t.sessions == s.sessions[d := Session(after, true)]
    && t.next == after + 1 && t.requests == s.requests
  }

  lemma RefreshEnds(s: State, r: RequestId, d: Device, redisUp: bool)
    requires d in s.sessions && s.sessions[d].active && s.sessions[d].hash < s.next && r !in s.requests
    ensures var h := s.sessions[d].hash;
            Exchanged(s, Exec(s, Refresh(r, d, h, redisUp)), d, h, s.next, redisUp)
  {
    var h := s.sessions[d].hash;
    Exec4(s, Present(r, d, h), Read(r), Mark(r, redisUp), Issue(r), [Swap(r)]);
    MarkedSteps(s, d, r, h, redisUp);
    var t := Step(Step(Step(Step(s, Present(r, d, h)), Read(r)), Mark(r, redisUp)), Issue(r));
    assert [Swap(r)] == [Swap(r)] + [];
    ExecCons(t, Swap(r), []);
    assert t.requests - {r} == s.requests;
  }

  /** Whatever has happened: if the device logged in and was neither revoked nor let expire since, an
      uninterrupted refresh with its current token exchanges exactly this token for a new one. */
  lemma CurrentTokenIsExchanged(now: int, acts: seq<Action>, r: RequestId, d: Device, redisUp: bool)
    requires LoggedInSince(now, acts, d) && StoredSince(acts, d)
    requires r !in Exec(Init(now), acts).requests
    ensures var s := Exec(Init(now), acts);
            && d in s.sessions
            && var h := s.sessions[d].hash;
               Exchanged(s, Exec(s, Refresh(r, d, h, redisUp)), d, h, s.next, redisUp)
  {
    ActiveIffLoggedInSince(now, acts, d);
    EveryRunInv(now, acts);
    var s := Exec(Init(now), acts);
    assert SessionOk(s, d);
    RefreshEnds(s, r, d, redisUp);
  }

  lemma LoginInstalls(s: State, d: Device)
    ensures var t := Step(s, Login(d));
            && t.sessions == s.sessions[d := Session(s.next, true)] && t.next == s.next + 1 && t.now == s.now
            && t.exchanges == s.exchanges && t.requests == s.requests
  {}

  lemma ExchangedAfterLogin(s: State, t: State, u: State, d: Device, redisUp: bool)
    requires t.sessions == s.sessions[d := Session(s.next, true)] && t.next == s.next + 1 && t.now == s.now
    requires t.exchanges == s.exchanges && Exchanged(t, u, d, s.next, t.next, redisUp)
    ensures u.exchanges == s.exchanges + [Exchange(d, s.next, s.next + 1, MarkIf(s.now, redisUp))]
    ensures u.sessions == s.sessions[d := Session(s.next + 1, true)]
  {}

  /** In every state a login gives the device a fresh token, and the next refresh with this token exchanges
      it, and only it. */
  lemma LoginIsUsable(s: State, r: RequestId, d: Device, redisUp: bool)
    requires r !in s.requests
    ensures var t := Exec(s, [Login(d)] + Refresh(r, d, s.next, redisUp));
            && t.exchanges == s.exchanges + [Exchange(d, s.next, s.next + 1, MarkIf(s.now, redisUp))]
            && t.sessions == s.sessions[d := Session(s.next + 1, true)]
  {
    var t := Step(s, Login(d));
    ExecCons(s, Login(d), Refresh(r, d, s.next, redisUp));
    LoginInstalls(s, d);
    RefreshEnds(t, r, d, redisUp);
    ExchangedAfterLogin(s, t, Exec(t, Refresh(r, d, s.next, redisUp)), d, redisUp);
  }
}
