/** What every interleaving of refreshes, logins and revocations guarantees. */
module RefreshTheorems {
  import opened Collections
  import opened RefreshRotation

  lemma EveryRunInv(now: int, acts: seq<Action>)
    ensures Inv(Exec(Init(now), acts))
  {
    RunKeepsInv(Init(now), acts);
  }

  // ---- Rotation is linear ----

  /** A hash comes from a login on the device, or from one of the first n exchanges on it. */
  predicate Origin(s: State, d: Device, h: Hash, n: nat)
    requires n <= |s.exchanges|
  {
    (d, h) in s.logins || exists i :: 0 <= i < n && s.exchanges[i].device == d && s.exchanges[i].after == h
  }

  predicate Chained(s: State) {
    && (forall d <- s.sessions :: Origin(s, d, s.sessions[d].hash, |s.exchanges|))
    && (forall j :: 0 <= j < |s.exchanges| ==> Origin(s, s.exchanges[j].device, s.exchanges[j].before, j))
  }

  lemma SwapKeepsChain(s: State, r: RequestId)
    requires Chained(s) && CanSwap(s, r)
    ensures Chained(Step(s, Swap(r)))
  {
    var q := s.requests[r];
    var t := Step(s, Swap(r));
    var n := |s.exchanges|;
    assert t.exchanges == s.exchanges + [Exchange(q.device, q.token, q.phase.issued, q.phase.mark)];
    forall d: Device, h: Hash, k: nat | k <= n && Origin(s, d, h, k) ensures Origin(t, d, h, k) {
      if (d, h) !in s.logins {
        var i :| 0 <= i < k && s.exchanges[i].device == d && s.exchanges[i].after == h;
        assert t.exchanges[i] == s.exchanges[i];
      }
    }
    forall d | d in t.sessions ensures Origin(t, d, t.sessions[d].hash, n + 1) {
      if d == q.device {
        assert t.exchanges[n].device == d && t.exchanges[n].after == t.sessions[d].hash;
      } else {
        assert Origin(t, d, s.sessions[d].hash, n);
      }
    }
    forall j | 0 <= j < n + 1 ensures Origin(t, t.exchanges[j].device, t.exchanges[j].before, j) {
      if j < n {
        assert Origin(s, s.exchanges[j].device, s.exchanges[j].before, j);
      } else {
        assert Origin(s, q.device, s.sessions[q.device].hash, n);
      }
    }
  }

  lemma StepKeepsChain(s: State, a: Action)
    requires Chained(s)
    ensures Chained(Step(s, a))
  {
    var t := Step(s, a);
    if a.Swap? && CanSwap(s, a.r) {
      SwapKeepsChain(s, a.r);
    } else {
      assert t.exchanges == s.exchanges && s.logins <= t.logins;
      forall d | d in t.sessions ensures Origin(t, d, t.sessions[d].hash, |t.exchanges|) {
        if d in s.sessions && s.sessions[d].hash == t.sessions[d].hash {
          assert Origin(s, d, s.sessions[d].hash, |s.exchanges|);
        } else {
          assert (d, t.sessions[d].hash) in t.logins;
        }
      }
      forall j | 0 <= j < |t.exchanges| ensures Origin(t, t.exchanges[j].device, t.exchanges[j].before, j) {
        assert Origin(s, s.exchanges[j].device, s.exchanges[j].before, j);
      }
    }
  }

  lemma {:induction false} RunKeepsChain(s: State, acts: seq<Action>)
    requires Chained(s)
    ensures Chained(Exec(s, acts))
    decreases |acts|
  {
    if acts != [] {
      StepKeepsChain(s, acts[0]);
      RunKeepsChain(Step(s, acts[0]), acts[1..]);
    }
  }

  /** In every interleaving each refresh token is exchanged at most once and obtained at most
      once, and what is exchanged came from a login or from an earlier exchange on the same
      device: successful exchanges form chains that start at logins. */
  lemma RotationIsLinear(now: int, acts: seq<Action>)
    ensures var s := Exec(Init(now), acts);
            && (forall i, j :: 0 <= i < j < |s.exchanges| ==>
                  s.exchanges[i].before != s.exchanges[j].before && s.exchanges[i].after != s.exchanges[j].after)
            && (forall j :: 0 <= j < |s.exchanges| ==> Origin(s, s.exchanges[j].device, s.exchanges[j].before, j))
  {
    EveryRunInv(now, acts);
    RunKeepsChain(Init(now), acts);
  }

  // ---- Revocation is final ----

  lemma {:induction false} DeadStaysDead(s: State, acts: seq<Action>)
    ensures s.dead <= Exec(s, acts).dead
    decreases |acts|
  {
    if acts != [] {
      DeadStaysDead(Step(s, acts[0]), acts[1..]);
    }
  }

  /** The token that is current on a device when its session is revoked, by a logout or by the
      revoke-all branch of a request, is never exchanged afterwards, whatever logins and
      refreshes follow. */
  lemma RevokedIsNeverExchanged(now: int, before: seq<Action>, revoke: Action, after: seq<Action>)
    requires revoke.Revoke? || revoke.RevokeNext?
    ensures var s := Exec(Init(now), before);
            var d := revoke.d;
            d in s.sessions && (revoke.Revoke? || (revoke.r in s.requests && s.requests[revoke.r].phase.Revoking?
                                                   && d in s.requests[revoke.r].phase.todo)) ==>
              forall e <- Exec(Step(s, revoke), after).exchanges :: e.before != s.sessions[d].hash
  {
    var s := Exec(Init(now), before);
    EveryRunInv(now, before);
    StepKeepsInv(s, revoke);
    RunKeepsInv(Step(s, revoke), after);
    DeadStaysDead(Step(s, revoke), after);
    var d := revoke.d;
    if d in s.sessions {
      var h := s.sessions[d].hash;
      var t := Exec(Step(s, revoke), after);
      if h in Step(s, revoke).dead {
        assert h in t.dead;
        assert !Spent(t, h);
      }
    }
  }

  // ---- No false reuse ----

  predicate RedisUp(acts: seq<Action>) { forall a <- acts :: a.Mark? ==> a.redisUp }

  predicate AllMarked(s: State) {
    && (forall e <- s.exchanges :: e.mark.Some?)
    && (forall r <- s.requests :: s.requests[r].phase.Issuing? || s.requests[r].phase.Swapping? ==>
          s.requests[r].phase.mark.Some?)
  }

  lemma {:induction false} RunStaysMarked(s: State, acts: seq<Action>)
    requires AllMarked(s) && RedisUp(acts)
    ensures AllMarked(Exec(s, acts))
    decreases |acts|
  {
    if acts != [] {
      assert acts[0] in acts;
      StepStaysMarked(s, acts[0]);
      RunStaysMarked(Step(s, acts[0]), acts[1..]);
    }
  }

  lemma StepStaysMarked(s: State, a: Action)
    requires AllMarked(s) && (a.Mark? ==> a.redisUp)
    ensures AllMarked(Step(s, a))
  {
    if a.Swap? && CanSwap(s, a.r) {
      assert s.requests[a.r].phase.mark.Some?;
    }
  }

  /** The action sends the request into the revoke-all branch. */
  predicate Revokes(s: State, r: RequestId, a: Action) {
    r in s.requests && !s.requests[r].phase.Revoking? &&
    r in Step(s, a).requests && Step(s, a).requests[r].phase.Revoking?
  }

  /** Some refresh has marked the token within the last thirty seconds, and Redis took the write. */
  ghost predicate RecentMark(s: State, h: Hash) {
    exists t: int :: (h, t) in s.marks && s.now < t + 30_000
  }

  /** The markers are the latest of the writes. */
  predicate MarksOk(s: State) {
    && (forall h <- s.markers :: (h, s.markers[h] - GRACE_MS) in s.marks)
    && (forall k <- s.marks :: k.0 in s.markers && k.1 + GRACE_MS <= s.markers[k.0] && k.1 <= s.now)
  }

  lemma MarkKeepsMarks(s: State, r: RequestId, up: bool)
    requires MarksOk(s)
    ensures MarksOk(Step(s, Mark(r, up)))
  {}

  lemma StepKeepsMarks(s: State, a: Action)
    requires MarksOk(s)
    ensures MarksOk(Step(s, a))
  {
    if a.Mark? {
      MarkKeepsMarks(s, a.r, a.redisUp);
    } else {
      OtherStepsMarkNothing(s, a);
    }
  }

  lemma OtherStepsMarkNothing(s: State, a: Action)
    requires !a.Mark?
    ensures Step(s, a).markers == s.markers && Step(s, a).marks == s.marks && Step(s, a).now >= s.now
  {}

  lemma {:induction false} RunKeepsMarks(s: State, acts: seq<Action>)
    requires MarksOk(s)
    ensures MarksOk(Exec(s, acts))
    decreases |acts|
  {
    if acts != [] {
      StepKeepsMarks(s, acts[0]);
      RunKeepsMarks(Step(s, acts[0]), acts[1..]);
    }
  }

  lemma AliveIffRecent(s: State, h: Hash)
    requires MarksOk(s)
    ensures MarkerAlive(s, h) <==> RecentMark(s, h)
  {
    if MarkerAlive(s, h) { assert (h, s.markers[h] - GRACE_MS) in s.marks; }
  }

  lemma RevokesWhen(s: State, r: RequestId, a: Action)
    ensures Revokes(s, r, a) <==>
              && r in s.requests && s.requests[r].phase.CheckingMarker?
              && a == CheckMarker(r, true) && !MarkerAlive(s, s.requests[r].token)
  {}

  /** Exactly when a request revokes every session, in every interleaving: it looks the marker up, Redis
      answers, and no marker write for its token that Redis took lies within the grace period. */
  lemma RevokesIff(now: int, acts: seq<Action>, r: RequestId, a: Action)
    ensures var s := Exec(Init(now), acts);
            Revokes(s, r, a) <==>
              && r in s.requests && s.requests[r].phase.CheckingMarker?
              && a == CheckMarker(r, true) && !RecentMark(s, s.requests[r].token)
  {
    RunKeepsMarks(Init(now), acts);
    var s := Exec(Init(now), acts);
    RevokesWhen(s, r, a);
    if r in s.requests { AliveIffRecent(s, s.requests[r].token); }
  }

  /** A token that some refresh marked within the grace period, whether that refresh or another one won
      the race to rotate it, never leads to the revoke-all branch. */
  lemma NoFalseReuse(now: int, acts: seq<Action>, r: RequestId)
    requires var s := Exec(Init(now), acts); r in s.requests && RecentMark(s, s.requests[r].token)
    ensures forall a: Action :: !Revokes(Exec(Init(now), acts), r, a)
  {
    forall a: Action ensures !Revokes(Exec(Init(now), acts), r, a) {
      RevokesIff(now, acts, r, a);
    }
  }

  /** With Redis taking the writes, every rotation has marked its token before its compare-and-set; so
      for the grace period after the marker a rotated token does not lead there. */
  lemma RotationMarksFirst(now: int, acts: seq<Action>, e: Exchange)
    requires RedisUp(acts) && e in Exec(Init(now), acts).exchanges
    ensures var s := Exec(Init(now), acts);
            && e.mark.Some? && e.mark.value <= s.now
            && (s.now < e.mark.value + 30_000 ==> RecentMark(s, e.before))
  {
    EveryRunInv(now, acts);
    RunStaysMarked(Init(now), acts);
    RunKeepsMarks(Init(now), acts);
    var s := Exec(Init(now), acts);
    assert MarkOk(s, e.before, e.mark);
    AliveIffRecent(s, e.before);
  }

  // ---- Runs ----

  lemma ExecCons(s: State, a: Action, rest: seq<Action>)
    ensures Exec(s, [a] + rest) == Exec(Step(s, a), rest)
  {
    assert ([a] + rest)[1..] == rest;
  }

  lemma {:induction false} ExecAppend(s: State, xs: seq<Action>, ys: seq<Action>)
    ensures Exec(s, xs + ys) == Exec(Exec(s, xs), ys)
    decreases |xs|
  {
    if xs == [] {
      assert xs + ys == ys;
    } else {
      assert xs + ys == [xs[0]] + (xs[1..] + ys);
      ExecCons(s, xs[0], xs[1..] + ys);
      ExecAppend(Step(s, xs[0]), xs[1..], ys);
    }
  }

  lemma Exec2(s: State, a: Action, b: Action, rest: seq<Action>)
    ensures Exec(s, [a] + ([b] + rest)) == Exec(Step(Step(s, a), b), rest)
  {
    ExecCons(s, a, [b] + rest);
    ExecCons(Step(s, a), b, rest);
  }

  lemma ExecPair(s: State, a: Action, b: Action)
    ensures Exec(s, [a, b]) == Step(Step(s, a), b)
  {
    assert [a, b] == [a] + ([b] + []);
    Exec2(s, a, b, []);
  }

  lemma SplitFour(a: Action, b: Action, c: Action, d: Action, rest: seq<Action>)
    ensures [a, b, c, d] + rest == [a] + ([b] + ([c] + ([d] + rest)))
  {}

  lemma Exec4(s: State, a: Action, b: Action, c: Action, d: Action, rest: seq<Action>)
    ensures Exec(s, [a, b, c, d] + rest) == Exec(Step(Step(Step(Step(s, a), b), c), d), rest)
  {
    SplitFour(a, b, c, d, rest);
    Exec2(s, a, b, [c] + ([d] + rest));
    Exec2(Step(Step(s, a), b), c, d, rest);
  }

  // ---- The marker write is what the grace period hangs on ----

  function MarkIf(now: int, written: bool): Option<int> { if written then Some(now) else None }

  /** A request rotates the current token of a device, and the token is presented again at once. */
  function RotatedThenPresented(s: State, d: Device, r: RequestId, q: RequestId, written: bool): seq<Action>
    requires d in s.sessions
  {
    var h := s.sessions[d].hash;
    [Present(r, d, h), Read(r), Mark(r, written), Issue(r)] + ([Swap(r)] + [Present(q, d, h), Read(q)])
  }

  lemma MarkedSteps(s: State, d: Device, r: RequestId, h: Hash, written: bool)
    requires d in s.sessions && s.sessions[d] == Session(h, true) && h < s.next && r !in s.requests
    ensures var t := Step(Step(Step(Step(s, Present(r, d, h)), Read(r)), Mark(r, written)), Issue(r));
            t == s.(requests := s.requests[r := Request(d, h, Swapping(MarkIf(s.now, written), s.next))],
                    next := s.next + 1,
                    markers := (if written then s.markers[h := s.now + GRACE_MS] else s.markers),
                    marks := (if written then s.marks + {(h, s.now)} else s.marks))
  {
    var t := Step(Step(s, Present(r, d, h)), Read(r));
    assert t == s.(requests := s.requests[r := Request(d, h, Marking)]);
  }

  lemma SwappedAndPresented(s: State, d: Device, r: RequestId, q: RequestId, h: Hash)
    requires CanSwap(s, r) && s.requests[r].token == h && s.requests[r].device == d
    requires q !in s.requests && h < s.next && s.requests[r].phase.issued != h
    ensures var t := Step(Step(Step(s, Swap(r)), Present(q, d, h)), Read(q));
            && t.exchanges == s.exchanges + [Exchange(d, h, s.requests[r].phase.issued, s.requests[r].phase.mark)]
            && q in t.requests && t.requests[q] == Request(d, h, CheckingMarker)
            && t.marks == s.marks && t.markers == s.markers && t.now == s.now
  {}

  lemma RotatedThenPresentedEnds(s: State, d: Device, r: RequestId, q: RequestId, h: Hash, written: bool)
    requires d in s.sessions && s.sessions[d] == Session(h, true) && h < s.next
    requires r !in s.requests && q !in s.requests && r != q
    ensures var t := Exec(s, RotatedThenPresented(s, d, r, q, written));
            && t.exchanges == s.exchanges + [Exchange(d, h, s.next, MarkIf(s.now, written))]
            && q in t.requests && t.requests[q] == Request(d, h, CheckingMarker)
            && t.now == s.now && t.marks == if written then s.marks + {(h, s.now)} else s.marks
  {
    var tail := [Present(q, d, h), Read(q)];
    Exec4(s, Present(r, d, h), Read(r), Mark(r, written), Issue(r), [Swap(r)] + tail);
    MarkedSteps(s, d, r, h, written);
    var s4 := Step(Step(Step(Step(s, Present(r, d, h)), Read(r)), Mark(r, written)), Issue(r));
    ExecCons(s4, Swap(r), tail);
    ExecPair(Step(s4, Swap(r)), Present(q, d, h), Read(q));
    SwappedAndPresented(s4, d, r, q, h);
  }

  lemma RecentAfterMark(s: State, t: State, h: Hash, written: bool)
    requires t.now == s.now && t.marks == if written then s.marks + {(h, s.now)} else s.marks
    ensures RecentMark(t, h) <==> written || RecentMark(s, h)
  {
    if written { assert (h, s.now) in t.marks; }
    if RecentMark(s, h) {
      var x: int :| (h, x) in s.marks && s.now < x + 30_000;
      assert (h, x) in t.marks;
    }
  }

  /** Whatever the state: a rotation followed by the same token revokes every session if and only if
      Redis dropped the rotation's marker and no other refresh had marked the token shortly before. */
  lemma GraceNeedsTheMarker(now: int, acts: seq<Action>, d: Device, r: RequestId, q: RequestId, written: bool)
    requires var s := Exec(Init(now), acts);
             d in s.sessions && s.sessions[d].active && r !in s.requests && q !in s.requests && r != q
    ensures var s := Exec(Init(now), acts);
            var h := s.sessions[d].hash;
            var t := Exec(s, RotatedThenPresented(s, d, r, q, written));
            && t.exchanges == s.exchanges + [Exchange(d, h, s.next, MarkIf(s.now, written))]
            && (Revokes(t, q, CheckMarker(q, true)) <==> !written && !RecentMark(s, h))
  {
    var s := Exec(Init(now), acts);
    var h, run := s.sessions[d].hash, RotatedThenPresented(s, d, r, q, written);
    EveryRunInv(now, acts);
    assert SessionOk(s, d);
    RotatedThenPresentedEnds(s, d, r, q, h, written);
    ExecAppend(Init(now), acts, run);
    RevokesIff(now, acts + run, q, CheckMarker(q, true));
    RecentAfterMark(s, Exec(s, run), h, written);
  }
}
