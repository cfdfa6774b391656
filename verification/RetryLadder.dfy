/** The journey of one event of one processor through its main topic, the retry topics and the
    dead-letter queue, as a machine over the handlers' atomic steps
    (transfer.consumer.ts, retry.handler.ts, retry.producer.ts, retry.consumer.ts, dlq.consumer.ts). */
module RetryLadder {
  import opened Collections
  import C = Claims

  type HandlerId = nat

  datatype RetryLevel = RetryLevel(topic: string, delayMs: nat)

  /** The list `sendToRetry` resolves from the aggregate type, and the list and bound the retry
      consumer has registered for the processor. */
  datatype Config = Config(send: seq<RetryLevel>, registry: seq<RetryLevel>, maxRetries: nat)

  predicate WellFormed(c: Config) { |c.send| == |c.registry| == c.maxRetries }

  datatype Location = Main | Level(i: nat)

  datatype Failure = Permanent | Transient | Unclassified

  datatype Outcome = Success | Fails(f: Failure)

  datatype Msg = Msg(loc: Location, retryCount: nat, createdAt: int, originalTopic: string)

  datatype Reason = Exhausted | NoRetryConfig | SecondGuard | NoLevel | Classified

  datatype Dead = Dead(topic: string, reason: Reason)

  datatype Phase =
    | Received
    | Cooling(until: int)
    | Claiming
    | Running(version: nat)
    | Failed(version: nat, f: Failure)
    | Publishing(f: Failure)

  datatype Handler = Handler(msg: Msg, phase: Phase)

  /** `sent` is every message published for the event, in order; any of them can be delivered
      any number of times. `row` is the event's failed_events document. `runs` (where the
      processor ran), `starts` (when a claim was granted) and `holder` (to whom last) are
      histories that no step reads. */
  datatype State = State(
    now: int, sent: seq<Msg>, claims: map<Location, C.Claim>, handlers: map<HandlerId, Handler>,
    dlq: seq<Dead>, row: Option<Dead>, runs: seq<Location>,
    starts: map<Location, int>, holder: HandlerId)

  function Init(topic: string, retryCount: nat, now: int): State {
    State(now, [Msg(Main, retryCount, now, topic)], map[], map[], [], None, [], map[], 0)
  }

  /** The steps of one message handler. */
  datatype Op = Enter | Wake | Claim | Process(outcome: Outcome) | FailClaim | Publish

  datatype Action = Tick(ms: nat) | Deliver(h: HandlerId, index: nat) | Handle(h: HandlerId, op: Op) | Sink(index: nat)

  /** The retry consumer claims under the incremented count, the main consumer under its own. */
  function ClaimCount(m: Msg): nat { if m.loc.Main? then m.retryCount else m.retryCount + 1 }

  function Done(s: State, h: HandlerId): State { s.(handlers := s.handlers - {h}) }

  function Bury(s: State, h: HandlerId, m: Msg, r: Reason): State {
    Done(s, h).(dlq := s.dlq + [Dead(m.originalTopic + ".dlq", r)])
  }

  function SetPhase(s: State, h: HandlerId, p: Phase): State
    requires h in s.handlers
  {
    s.(handlers := s.handlers[h := s.handlers[h].(phase := p)])
  }

  /** `sendToRetry`: the level indexed by the count, a fresh creation time, the base topic. */
  function SendToRetry(c: Config, s: State, h: HandlerId, m: Msg, retryCount: nat): State {
    if retryCount < |c.send| then
      Done(s, h).(sent := s.sent + [Msg(Level(retryCount), retryCount, s.now, m.originalTopic)])
    else Bury(s, h, m, NoLevel)
  }

  function CoolDown(c: Config, s: State, m: Msg): int
    requires m.retryCount + 1 < |c.registry|
  {
    var elapsed := s.now - m.createdAt;
    var left := c.registry[m.retryCount + 1].delayMs - elapsed;
    if left > 0 then left else 0
  }

  /** A stale claim is not taken over: that is the side condition of this module. */
  function ClaimStep(s: State, h: HandlerId, m: Msg): State
    requires h in s.handlers
  {
    if m.loc !in s.claims then
      SetPhase(s, h, Running(0)).(
      claims := s.claims[m.loc := C.FreshClaim(ClaimCount(m), s.now)],
      starts := s.starts[m.loc := s.now],
      holder := h)
    else if s.claims[m.loc].retryCount != ClaimCount(m) then SetPhase(s, h, Running(0)).(holder := h)
    else if s.claims[m.loc].status.PROCESSING? && s.now - s.claims[m.loc].updatedAt > C.STALE_THRESHOLD_MS then s
    else Done(s, h)
  }

  predicate Matches(s: State, m: Msg, version: nat) {
    m.loc in s.claims && s.claims[m.loc].retryCount == ClaimCount(m) && s.claims[m.loc].version == version
  }

  function ProcessStep(s: State, h: HandlerId, m: Msg, version: nat, outcome: Outcome): State
    requires h in s.handlers
  {
    var r := s.(runs := s.runs + [m.loc]);
    match outcome
    case Fails(f) => SetPhase(r, h, Failed(version, f))
    case Success =>
      if Matches(s, m, version) && s.claims[m.loc].status.PROCESSING?
      then Done(r, h).(claims := s.claims[m.loc := C.Completed(s.claims[m.loc])])
      else SetPhase(r, h, Failed(version, Unclassified))
  }

  function FailStep(c: Config, s: State, h: HandlerId, m: Msg, version: nat, f: Failure): State
    requires h in s.handlers
  {
    if m.loc.Level? && m.retryCount + 1 >= c.maxRetries then Bury(s, h, m, SecondGuard)
    else
      SetPhase(s, h, Publishing(f)).(claims :=
        if Matches(s, m, version)
        then s.claims[m.loc := s.claims[m.loc].(status := C.FAILED, version := version + 1, updatedAt := s.now)]
        else s.claims)
  }

  /** The main consumer classifies the error; the retry consumer publishes whatever it was. */
  function PublishStep(c: Config, s: State, h: HandlerId, m: Msg, f: Failure): State {
    match m.loc
    case Level(_) => SendToRetry(c, s, h, m, m.retryCount + 1)
    case Main => if f.Transient? then SendToRetry(c, s, h, m, m.retryCount) else Bury(s, h, m, Classified)
  }

  function EnterStep(c: Config, s: State, h: HandlerId, m: Msg): State
    requires h in s.handlers
  {
    if m.loc.Main? then SetPhase(s, h, Claiming)
    else if m.retryCount + 1 >= c.maxRetries then Bury(s, h, m, Exhausted)
    else if m.retryCount + 1 >= |c.registry| then Bury(s, h, m, NoRetryConfig)
    else SetPhase(s, h, Cooling(s.now + CoolDown(c, s, m)))
  }

  function HandlerStep(c: Config, s: State, h: HandlerId, op: Op): State
    requires h in s.handlers
  {
    var m, p := s.handlers[h].msg, s.handlers[h].phase;
    match op
    case Enter => if p.Received? then EnterStep(c, s, h, m) else s
    case Wake => if p.Cooling? && s.now >= p.until then SetPhase(s, h, Claiming) else s
    case Claim => if p.Claiming? then ClaimStep(s, h, m) else s
    case Process(o) => if p.Running? then ProcessStep(s, h, m, p.version, o) else s
    case FailClaim => if p.Failed? then FailStep(c, s, h, m, p.version, p.f) else s
    case Publish => if p.Publishing? then PublishStep(c, s, h, m, p.f) else s
  }

  function Step(c: Config, s: State, a: Action): State {
    match a
    case Tick(ms) => s.(now := s.now + ms)
    case Deliver(h, i) =>
      if h !in s.handlers && i < |s.sent| then s.(handlers := s.handlers[h := Handler(s.sent[i], Received)]) else s
    case Handle(h, op) => if h in s.handlers then HandlerStep(c, s, h, op) else s
    // The sink inserts one row per event id and never changes it.
    case Sink(i) => if i < |s.dlq| && s.row.None? then s.(row := Some(s.dlq[i])) else s
  }

  function Exec(c: Config, s: State, acts: seq<Action>): State
    decreases |acts|
  {
    if acts == [] then s else Exec(c, Step(c, s, acts[0]), acts[1..])
  }

  // ---- The inductive invariant ----

  /** How far down the ladder a location is: the main topic first, then one level after the other. */
  function Rank(l: Location, r0: nat): int { if l.Main? then 0 else l.i - r0 + 1 }

  predicate OnLadder(c: Config, l: Location, r0: nat) { l.Level? ==> r0 <= l.i < c.maxRetries }

  /** Locations at which a claim can ever be made: all but the last level. */
  predicate Workable(c: Config, l: Location) { l.Level? ==> l.i + 1 < c.maxRetries }

  /** A message on level i carries retryCount i, and still names the first topic. */
  predicate MsgOk(c: Config, m: Msg, topic: string, r0: nat) {
    && OnLadder(c, m.loc, r0)
    && m.retryCount == (if m.loc.Main? then r0 else m.loc.i)
    && m.originalTopic == topic
  }

  function Frontier(s: State): Msg
    requires s.sent != []
  {
    s.sent[|s.sent| - 1]
  }

  /** One message per location, published in order. */
  predicate Chain(c: Config, s: State, topic: string, r0: nat) {
    && s.sent != []
    && (forall j :: 0 <= j < |s.sent| ==> MsgOk(c, s.sent[j], topic, r0) && Rank(s.sent[j].loc, r0) == j)
  }

  predicate ClaimOk(c: Config, s: State, l: Location, r0: nat)
    requires l in s.claims && s.sent != []
  {
    && OnLadder(c, l, r0) && Workable(c, l)
    && Rank(l, r0) < |s.sent|
    && s.claims[l].retryCount == (if l.Main? then r0 else l.i + 1)
    && (Rank(l, r0) < |s.sent| - 1 ==> s.claims[l].status.FAILED?)
  }

  ghost predicate ClaimsOk(c: Config, s: State, r0: nat)
    requires s.sent != []
  {
    && (forall l <- s.claims :: ClaimOk(c, s, l, r0))
    && (forall l: Location :: OnLadder(c, l, r0) && Rank(l, r0) < |s.sent| - 1 ==> l in s.claims)
  }

  predicate Holds(p: Phase) { p.Running? || p.Failed? || p.Publishing? }

  predicate HandlerOk(c: Config, s: State, h: HandlerId, topic: string, r0: nat)
    requires h in s.handlers
  {
    var hd := s.handlers[h];
    && MsgOk(c, hd.msg, topic, r0)
    && Rank(hd.msg.loc, r0) < |s.sent|
    && (!hd.phase.Received? ==> Workable(c, hd.msg.loc))
    && (Holds(hd.phase) ==> h == s.holder)
  }

  predicate HandlersOk(c: Config, s: State, topic: string, r0: nat) {
    forall h <- s.handlers :: HandlerOk(c, s, h, topic, r0)
  }

  /** Some handler is between its claim and the end of its error path. */
  predicate Held(s: State) { s.holder in s.handlers && Holds(s.handlers[s.holder].phase) }

  predicate BeingRun(s: State) { s.holder in s.handlers && s.handlers[s.holder].phase.Running? }

  /** The situations of the last published message: unclaimed, being processed, committed, on
      the error path, or dead. */
  predicate FrontierOk(c: Config, s: State)
    requires s.sent != []
  {
    var f := Frontier(s);
    && (Held(s) ==> s.handlers[s.holder].msg.loc == f.loc)
    && if f.loc !in s.claims then
         !Held(s) && (s.dlq != [] ==> !Workable(c, f.loc))
       else
         match s.claims[f.loc].status
         case COMPLETED => !Held(s) && s.dlq == []
         case PROCESSING =>
           && s.dlq == [] && Held(s) && !s.handlers[s.holder].phase.Publishing?
           && s.handlers[s.holder].phase.version == s.claims[f.loc].version
         case FAILED =>
           if Held(s) then s.dlq == [] && s.handlers[s.holder].phase.Publishing? else |s.dlq| == 1
  }

  ghost predicate Core(c: Config, s: State, topic: string, r0: nat) {
    && WellFormed(c)
    && Chain(c, s, topic, r0)
    && ClaimsOk(c, s, r0)
    && HandlersOk(c, s, topic, r0)
    && FrontierOk(c, s)
  }

  /** The processor ran at each published location at most once, in order of publication. */
  predicate RunsOk(c: Config, s: State, r0: nat)
    requires s.sent != []
  {
    && (forall j :: 0 <= j < |s.runs| ==> OnLadder(c, s.runs[j], r0) && Rank(s.runs[j], r0) == j)
    && |s.runs| == |s.sent| - 1 + (if Frontier(s).loc in s.claims && !BeingRun(s) then 1 else 0)
  }

  /** The dead letters go to the first topic's queue, and the guards behind the first exhaustion
      check never fire. */
  predicate DeadOk(c: Config, s: State, topic: string, r0: nat)
    requires s.sent != []
  {
    && (forall d <- s.dlq ::
          && d.topic == topic + ".dlq"
          && !d.reason.NoRetryConfig? && !d.reason.SecondGuard?
          && (d.reason.NoLevel? ==> r0 >= c.maxRetries)
          && (d.reason.Exhausted? ==> Frontier(s).loc !in s.claims))
    && (s.row.Some? ==> s.row.value in s.dlq)
  }

  /** The cool-downs before the first k retries. */
  function TotalDelay(c: Config, r0: nat, k: int): nat
    decreases k
  {
    if k <= 0 then 0
    else TotalDelay(c, r0, k - 1) + (if r0 + k < |c.registry| then c.registry[r0 + k].delayMs else 0)
  }

  /** The k-th retry level may publish, or start, only so late after the first retry publish. */
  predicate NotBefore(c: Config, sent: seq<Msg>, r0: nat, time: int, k: int) {
    |sent| > 1 && time >= sent[1].createdAt + TotalDelay(c, r0, k)
  }

  predicate MsgTimeOk(c: Config, now: int, sent: seq<Msg>, m: Msg, r0: nat) {
    m.createdAt <= now && (m.loc.Level? ==> NotBefore(c, sent, r0, m.createdAt, Rank(m.loc, r0) - 1))
  }

  predicate HandlerTimeOk(c: Config, now: int, sent: seq<Msg>, hd: Handler, r0: nat) {
    && MsgTimeOk(c, now, sent, hd.msg, r0)
    && (hd.msg.loc.Level? ==>
          && (hd.phase.Cooling? ==> NotBefore(c, sent, r0, hd.phase.until, Rank(hd.msg.loc, r0)))
          && (!hd.phase.Received? && !hd.phase.Cooling? ==> NotBefore(c, sent, r0, now, Rank(hd.msg.loc, r0))))
  }

  predicate StartOk(c: Config, sent: seq<Msg>, start: int, l: Location, r0: nat) {
    l.Level? ==> NotBefore(c, sent, r0, start, Rank(l, r0))
  }

  predicate TimesOk(c: Config, s: State, r0: nat) {
    && s.starts.Keys == s.claims.Keys
    && (forall m <- s.sent :: MsgTimeOk(c, s.now, s.sent, m, r0))
    && (forall h <- s.handlers :: HandlerTimeOk(c, s.now, s.sent, s.handlers[h], r0))
    && (forall l <- s.starts :: StartOk(c, s.sent, s.starts[l], l, r0))
  }

  ghost predicate Inv(c: Config, s: State, topic: string, r0: nat) {
    && Core(c, s, topic, r0)
    && RunsOk(c, s, r0)
    && DeadOk(c, s, topic, r0)
    && TimesOk(c, s, r0)
  }
}
