/** Refresh-token rotation of one user: concurrent refreshes, logins and revocations over the
    session documents and the Redis markers (authservice.ts, session.helper.ts, token.helper.ts).
    A token hash is a number drawn from a counter, so issued hashes are fresh. */
module RefreshRotation {
  import opened Collections

  type Hash = nat
  type Device = string
  type RequestId = nat

  const GRACE_MS := 30_000

  datatype Session = Session(hash: Hash, active: bool)

  /** Where a refresh request stands; `mark` is when its marker was written, if Redis took it. */
  datatype Phase =
    | Reading
    | CheckingMarker
    | Marking
    | Issuing(mark: Option<int>)
    | Swapping(mark: Option<int>, issued: Hash)
    | Revoking(todo: set<Device>)

  datatype Request = Request(device: Device, token: Hash, phase: Phase)

  datatype Exchange = Exchange(device: Device, before: Hash, after: Hash, mark: Option<int>)

  /** `exchanges`, `logins`, `dead` and `marks` are histories: successful rotations in order, the hashes
      logins installed, the hashes that were current when their session was revoked, and the marker
      writes that Redis took. */
  datatype State = State(
    now: int, sessions: map<Device, Session>, markers: map<Hash, int>, next: Hash,
    requests: map<RequestId, Request>,
    exchanges: seq<Exchange>, logins: set<(Device, Hash)>, dead: set<Hash>, marks: set<(Hash, int)>)

  function Init(now: int): State { State(now, map[], map[], 0, map[], [], {}, {}, {}) }

  datatype Action =
    | Tick(ms: nat)
    | Login(d: Device)
    | Revoke(d: Device)
    | Expire(d: Device)
    | Present(r: RequestId, d: Device, token: Hash)
    | Read(r: RequestId)
    | CheckMarker(r: RequestId, redisUp: bool)
    | Mark(r: RequestId, redisUp: bool)
    | Issue(r: RequestId)
    | Swap(r: RequestId)
    | RevokeNext(r: RequestId, d: Device)
    | Drop(r: RequestId)

  function Goto(s: State, r: RequestId, p: Phase): State
    requires r in s.requests
  {
    s.(requests := s.requests[r := s.requests[r].(phase := p)])
  }

  function Leave(s: State, r: RequestId): State { s.(requests := s.requests - {r}) }

  predicate MarkerAlive(s: State, h: Hash) { h in s.markers && s.now < s.markers[h] }

  /** `updateOne({ userId, deviceId, isActive: true }, { isActive: false })`. */
  function Deactivated(s: State, d: Device): State {
    if d in s.sessions then
      s.(sessions := s.sessions[d := s.sessions[d].(active := false)], dead := s.dead + {s.sessions[d].hash})
    else s
  }

  /** The upsert of createMongoSession: the device's document gets the new hash and is active. */
  function LoggedIn(s: State, d: Device): State {
    s.(sessions := s.sessions[d := Session(s.next, true)], next := s.next + 1, logins := s.logins + {(d, s.next)})
  }

  function RequestStep(s: State, a: Action): State
    requires !a.Tick? && !a.Login? && !a.Revoke? && !a.Expire? && !a.Present?
    requires a.r in s.requests
  {
    var q := s.requests[a.r];
    match a
    case Read(r) =>
      if !q.phase.Reading? then s
      else if q.device !in s.sessions || !s.sessions[q.device].active then Leave(s, r)
      else if s.sessions[q.device].hash != q.token then Goto(s, r, CheckingMarker)
      else Goto(s, r, Marking)
    case CheckMarker(r, up) =>
      if !q.phase.CheckingMarker? then s
      else if !up || MarkerAlive(s, q.token) then Leave(s, r)
      else Goto(s, r, Revoking(s.sessions.Keys))
    case Mark(r, up) =>
      if !q.phase.Marking? then s
      else if up then
        Goto(s, r, Issuing(Some(s.now))).(
        markers := s.markers[q.token := s.now + GRACE_MS], marks := s.marks + {(q.token, s.now)})
      else Goto(s, r, Issuing(None))
    case Issue(r) =>
      if !q.phase.Issuing? then s
      else Goto(s, r, Swapping(q.phase.mark, s.next)).(next := s.next + 1)
    case Swap(r) =>
      if !q.phase.Swapping? then s
      else if q.device in s.sessions && s.sessions[q.device] == Session(q.token, true) then
        Leave(s, r).(
        sessions := s.sessions[q.device := Session(q.phase.issued, true)],
        exchanges := s.exchanges + [Exchange(q.device, q.token, q.phase.issued, q.phase.mark)])
      else Leave(s, r)
    case RevokeNext(r, d) =>
      if q.phase.Revoking? && d in q.phase.todo
      then Deactivated(Goto(s, r, Revoking(q.phase.todo - {d})), d) else s
    case Drop(r) => Leave(s, r)
  }

  function Step(s: State, a: Action): State {
    match a
    case Tick(ms) => s.(now := s.now + ms)
    case Login(d) => LoggedIn(s, d)
    case Revoke(d) => Deactivated(s, d)
    case Expire(d) => s.(sessions := s.sessions - {d})
    // Only a token that has been issued can be presented.
    case Present(r, d, token) =>
      if r !in s.requests && token < s.next
      then s.(requests := s.requests[r := Request(d, token, Reading)]) else s
    case Read(r) => if r in s.requests then RequestStep(s, a) else s
    case CheckMarker(r, _) => if r in s.requests then RequestStep(s, a) else s
    case Mark(r, _) => if r in s.requests then RequestStep(s, a) else s
    case Issue(r) => if r in s.requests then RequestStep(s, a) else s
    case Swap(r) => if r in s.requests then RequestStep(s, a) else s
    case RevokeNext(r, _) => if r in s.requests then RequestStep(s, a) else s
    case Drop(r) => Leave(s, r)
  }

  function Exec(s: State, acts: seq<Action>): State
    decreases |acts|
  {
    if acts == [] then s else Exec(Step(s, acts[0]), acts[1..])
  }

  // ---- The inductive invariant ----

  predicate Spent(s: State, h: Hash) { exists e <- s.exchanges :: e.before == h }

  /** A current hash was never exchanged, is not shared by two devices, and is not dead while
      its session is active. */
  predicate SessionOk(s: State, d: Device)
    requires d in s.sessions
  {
    var h := s.sessions[d].hash;
    && h < s.next
    && !Spent(s, h)
    && (s.sessions[d].active ==> h !in s.dead)
    && (forall c <- s.sessions :: s.sessions[c].hash == h ==> c == d)
  }

  /** A hash that has been issued but not yet installed is unknown to everybody else. */
  predicate UnusedHash(s: State, h: Hash) {
    && h < s.next
    && !Spent(s, h)
    && h !in s.dead
    && (forall d <- s.sessions :: s.sessions[d].hash != h)
    && (forall e <- s.exchanges :: e.after != h)
  }

  predicate RequestOk(s: State, r: RequestId)
    requires r in s.requests
  {
    var q := s.requests[r];
    && q.token < s.next
    && (q.phase.Issuing? ==> MarkOk(s, q.token, q.phase.mark))
    && (q.phase.Swapping? ==>
          && MarkOk(s, q.token, q.phase.mark)
          && UnusedHash(s, q.phase.issued)
          && forall p <- s.requests ::
               s.requests[p].phase.Swapping? && s.requests[p].phase.issued == q.phase.issued ==> p == r)
  }

  /** A marker lives at least the grace period after it was written. */
  predicate MarkOk(s: State, h: Hash, mark: Option<int>) {
    mark.Some? ==> h in s.markers && s.markers[h] >= mark.value + GRACE_MS && mark.value <= s.now
  }

  predicate HistoryOk(s: State) {
    && (forall h <- s.dead :: h < s.next && !Spent(s, h))
    && (forall l <- s.logins :: l.1 < s.next)
    && (forall e <- s.exchanges :: e.before < s.next && e.after < s.next && MarkOk(s, e.before, e.mark))
    && (forall i, j :: 0 <= i < j < |s.exchanges| ==>
          s.exchanges[i].before != s.exchanges[j].before && s.exchanges[i].after != s.exchanges[j].after)
  }

  predicate Inv(s: State) {
    && (forall d <- s.sessions :: SessionOk(s, d))
    && (forall r <- s.requests :: RequestOk(s, r))
    && HistoryOk(s)
  }

  /** The successful compare-and-set of a request. */
  predicate CanSwap(s: State, r: RequestId) {
    && r in s.requests && s.requests[r].phase.Swapping?
    && s.requests[r].device in s.sessions
    && s.sessions[s.requests[r].device] == Session(s.requests[r].token, true)
  }

  lemma SwapSpends(s: State, r: RequestId)
    requires CanSwap(s, r)
    ensures forall h :: Spent(Step(s, Swap(r)), h) <==> Spent(s, h) || h == s.requests[r].token
  {
    var q := s.requests[r];
    var t := Step(s, Swap(r));
    assert t.exchanges == s.exchanges + [Exchange(q.device, q.token, q.phase.issued, q.phase.mark)];
    forall h ensures Spent(t, h) <==> Spent(s, h) || h == q.token {
      assert t.exchanges[|s.exchanges|].before == q.token;
      if Spent(s, h) {
        var x :| x in s.exchanges && x.before == h;
        assert x in t.exchanges;
      }
    }
  }

  lemma SwapKeepsSessions(s: State, r: RequestId, d: Device)
    requires Inv(s) && CanSwap(s, r) && d in s.sessions
    ensures SessionOk(Step(s, Swap(r)), d)
  {
    SwapSpends(s, r);
    var q := s.requests[r];
    assert RequestOk(s, r) && SessionOk(s, q.device) && SessionOk(s, d);
  }

  lemma SwapKeepsRequests(s: State, r: RequestId, p: RequestId)
    requires Inv(s) && CanSwap(s, r) && p in s.requests && p != r
    ensures RequestOk(Step(s, Swap(r)), p)
  {
    SwapSpends(s, r);
    var q := s.requests[r];
    assert RequestOk(s, r) && RequestOk(s, p) && SessionOk(s, q.device);
  }

  lemma SwapKeepsHistory(s: State, r: RequestId)
    requires Inv(s) && CanSwap(s, r)
    ensures HistoryOk(Step(s, Swap(r)))
  {
    SwapSpends(s, r);
    var q := s.requests[r];
    var t := Step(s, Swap(r));
    assert RequestOk(s, r) && SessionOk(s, q.device);
    assert t.exchanges == s.exchanges + [Exchange(q.device, q.token, q.phase.issued, q.phase.mark)];
    forall i | 0 <= i < |s.exchanges|
      ensures s.exchanges[i].before != q.token && s.exchanges[i].after != q.phase.issued
    {
      assert s.exchanges[i] in s.exchanges;
    }
  }

  lemma SwapKeepsInv(s: State, r: RequestId)
    requires Inv(s) && r in s.requests
    ensures Inv(Step(s, Swap(r)))
  {
    var t := Step(s, Swap(r));
    if CanSwap(s, r) {
      forall d | d in t.sessions ensures SessionOk(t, d) {
        SwapKeepsSessions(s, r, d);
      }
      forall p | p in t.requests ensures RequestOk(t, p) {
        SwapKeepsRequests(s, r, p);
      }
      SwapKeepsHistory(s, r);
    } else {
      QuietKeepsInv(s, t);
    }
  }

  lemma IssueKeepsInv(s: State, r: RequestId)
    requires Inv(s) && r in s.requests
    ensures Inv(Step(s, Issue(r)))
  {
    var t := Step(s, Issue(r));
    forall d | d in t.sessions ensures SessionOk(t, d) {
      assert SessionOk(s, d);
    }
    forall p | p in t.requests ensures RequestOk(t, p) {
      assert RequestOk(s, p) && RequestOk(s, r);
    }
  }

  lemma MarkKeepsInv(s: State, r: RequestId, up: bool)
    requires Inv(s) && r in s.requests
    ensures Inv(Step(s, Mark(r, up)))
  {
    var t := Step(s, Mark(r, up));
    forall h, m | MarkOk(s, h, m) ensures MarkOk(t, h, m) {}
    forall p | p in t.requests ensures RequestOk(t, p) {
      assert RequestOk(s, p);
    }
  }

  lemma DeactivatedKeepsInv(s: State, d: Device)
    requires Inv(s)
    ensures Inv(Deactivated(s, d))
  {
    var t := Deactivated(s, d);
    forall c | c in t.sessions ensures SessionOk(t, c) {
      assert SessionOk(s, c);
    }
    forall p | p in t.requests ensures RequestOk(t, p) {
      assert RequestOk(s, p);
    }
  }

  lemma LoginKeepsInv(s: State, d: Device)
    requires Inv(s)
    ensures Inv(LoggedIn(s, d))
  {
    var t := LoggedIn(s, d);
    forall c | c in t.sessions ensures SessionOk(t, c) {
      if c != d { assert SessionOk(s, c); }
    }
    forall p | p in t.requests ensures RequestOk(t, p) {
      assert RequestOk(s, p);
    }
  }

  lemma StepKeepsInv(s: State, a: Action)
    requires Inv(s)
    ensures Inv(Step(s, a))
  {
    match a
    case Login(d) => LoginKeepsInv(s, d);
    case Revoke(d) => DeactivatedKeepsInv(s, d);
    case Mark(r, up) => if r in s.requests { MarkKeepsInv(s, r, up); }
    case Issue(r) => if r in s.requests { IssueKeepsInv(s, r); }
    case Swap(r) => if r in s.requests { SwapKeepsInv(s, r); }
    case RevokeNext(r, d) =>
      if r in s.requests && s.requests[r].phase.Revoking? && d in s.requests[r].phase.todo {
        var m := Goto(s, r, Revoking(s.requests[r].phase.todo - {d}));
        QuietKeepsInv(s, m);
        DeactivatedKeepsInv(m, d);
      }
    case _ => QuietStepKeepsInv(s, a);
  }

  lemma QuietStepKeepsInv(s: State, a: Action)
    requires Inv(s)
    requires !a.Login? && !a.Revoke? && !a.Mark? && !a.Issue? && !a.Swap? && !a.RevokeNext?
    ensures Inv(Step(s, a))
  {
    QuietKeepsInv(s, Step(s, a));
  }

  /** Steps that leave histories and hashes alone and bring no request closer to its swap. */
  lemma QuietKeepsInv(s: State, t: State)
    requires Inv(s)
    requires t == s.(now := t.now, sessions := t.sessions, requests := t.requests) && t.now >= s.now
    requires t.sessions.Keys <= s.sessions.Keys && forall d <- t.sessions :: t.sessions[d] == s.sessions[d]
    requires forall r <- t.requests ::
               t.requests[r].token < s.next &&
               ((r in s.requests && t.requests[r] == s.requests[r]) ||
                (!t.requests[r].phase.Issuing? && !t.requests[r].phase.Swapping?))
    ensures Inv(t)
  {
    forall d | d in t.sessions ensures SessionOk(t, d) {
      assert SessionOk(s, d);
    }
    forall h, m | MarkOk(s, h, m) ensures MarkOk(t, h, m) {}
    forall r | r in t.requests ensures RequestOk(t, r) {
      if r in s.requests { assert RequestOk(s, r); }
    }
  }

  lemma {:induction false} RunKeepsInv(s: State, acts: seq<Action>)
    requires Inv(s)
    ensures Inv(Exec(s, acts))
    decreases |acts|
  {
    if acts != [] {
      StepKeepsInv(s, acts[0]);
      RunKeepsInv(Step(s, acts[0]), acts[1..]);
    }
  }
}
