/** Any number of supervisors, with their reconnect loops and heartbeat monitors, and any number of
    operators, over the row of one account.

    Every repository call is one atomic step at the current time; time only moves forward. A loop may
    be dropped at any point (a crash or a cancellation). */
module ConnectionSystem {
  import opened Common
  import opened ConnectionModel

  /** What is fixed for one connection loop: its supervisor's owner id and bounds. */
  datatype Config = Config(owner: Uuid, lease: real, maxRetries: nat, maxBackoff: real, maxRetryAfter: nat)

  /** The fields `_save_state` replaces, and whether the lease is given up. */
  datatype Update = Update(
    state: HealthState,
    errorCode: Option<HealthError>,
    proxyIp: Option<string>,
    latencyMs: Option<nat>,
    retryCount: nat,
    retryAt: Option<Instant>,
    release: bool)

  /** Where a loop (`start`, `_run`, then `_monitor`) stands, with the record it received last. */
  datatype Pc =
    | Starting
    | Renewing(record: ConnectionRecord)
    | Deciding(record: ConnectionRecord)
    | Sleeping(record: ConnectionRecord)
    | Acquiring(record: ConnectionRecord)
    | Ready(record: ConnectionRecord)
    | Connecting(record: ConnectionRecord)
    | Saving(record: ConnectionRecord, update: Update)
    | Monitoring(record: ConnectionRecord)
    | FailClosing(record: ConnectionRecord)
    | Ended

  datatype Loop = Loop(config: Config, pc: Pc)

  /** How an attempt to connect ends. */
  datatype Attempt =
    | Authorized(proxyIp: Option<string>, latencyMs: Option<nat>)
    | Unauthorized
    | AccountGone
    | Flood(retryAfter: nat)
    | Failure

  datatype Input =
    | Proceed
    | ProxyAnswer(available: bool)
    | AttemptEnds(attempt: Attempt)
    | MonitorFails
    | Drop

  datatype Event =
    | Elapse(seconds: real)
    | Start(id: nat, config: Config)
    | Act(id: nat, input: Input)
    | Force(state: HealthState)
    | Import(accountId: Uuid, sessionId: Uuid)
    | ResumeRead(operator: nat)
    | ResumeSave(operator: nat)

  /** The window during which one claim's lease ran: from the claim to the last expiry granted under
      its fence, cut short when the lease was given up, failed closed or forced terminal. */
  datatype Window = Window(owner: Uuid, fence: nat, start: Instant, until: Instant)

  /** A client created by the loop, with the record it acted on and the row at that moment. */
  datatype Creation = Creation(record: ConnectionRecord, row: Row, at: Instant)

  /** The fields from `issued` on are histories: every leased record handed out, the lease windows,
      the clients created, the failures persisted and the resumes made since the last `active`. */
  datatype System = System(
    maxRetries: nat,
    now: Instant,
    row: Row,
    loops: map<nat, Loop>,
    operators: map<nat, ConnectionRecord>,
    issued: set<ConnectionRecord>,
    windows: seq<Window>,
    creations: seq<Creation>,
    failures: nat,
    resumes: nat)

  function Initial(maxRetries: nat): System {
    System(maxRetries, 0.0, None, map[], map[], {}, [], [], 0, 0)
  }

  predicate Future(retryAt: Option<Instant>, now: Instant) {
    retryAt.Some? && retryAt.value > now
  }

  /** `_owns_claim` */
  predicate OwnsClaim(row: Row, record: ConnectionRecord, owner: Uuid, now: Instant) {
    && row.Some?
    && SameClaim(row.value, record, owner)
    && Live(row.value.leaseExpiresAt, now)
  }

  function Power(n: nat): nat {
    if n == 0 then 1 else 2 * Power(n - 1)
  }

  lemma {:induction false} PowerPositive(n: nat)
    ensures Power(n) >= 1
  {
    if n > 0 {
      PowerPositive(n - 1);
    }
  }

  /** The delay before retry number `retries` (from 1). */
  function Backoff(retries: nat, maxBackoff: real): real
    requires retries >= 1
  {
    var doubled := Power(retries - 1) as real;
    if doubled <= maxBackoff then doubled else maxBackoff
  }

  function Outcome(state: HealthState, error: HealthError, record: ConnectionRecord): Update {
    Update(state, Some(error), None, None, record.retryCount, None, true)
  }

  /** What the loop persists at the end of an attempt made on `record`. */
  function AttemptUpdate(c: Config, record: ConnectionRecord, attempt: Attempt, now: Instant): Update {
    var retries := record.retryCount + 1;
    match attempt
    case Authorized(proxyIp, latencyMs) => Update(Active, None, proxyIp, latencyMs, 0, None, false)
    case Unauthorized => Outcome(ReauthRequired, AuthorizationLost, record)
    case AccountGone => Outcome(Blocked, HealthError.AccountBlocked, record)
    case Flood(after) =>
      if retries >= c.maxRetries || after > c.maxRetryAfter
      then Update(Blocked, Some(RetryExhausted), None, None, retries, None, true)
      else Update(Limited, Some(RateLimited), None, None, retries, Some(now + after as real), false)
    case Failure =>
      if retries >= c.maxRetries
      then Update(Blocked, Some(RetryExhausted), None, None, retries, None, true)
      else Update(Quarantine, Some(ConnectionFailed), None, None, retries,
          Some(now + Backoff(retries, c.maxBackoff)), false)
  }

  /** `_save_state`: the caller's record with the update applied. */
  function Updated(record: ConnectionRecord, u: Update, now: Instant): ConnectionRecord {
    record.(health := Health(u.state, Some(now), u.proxyIp, u.latencyMs, u.errorCode),
            retryCount := u.retryCount, retryAt := u.retryAt)
  }

  /** Where the loop goes once its save succeeded. */
  function AfterSave(saved: ConnectionRecord, u: Update): Pc {
    if u.state == Active then Monitoring(saved)
    else if u.release then Ended
    else Sleeping(saved)
  }

  /** The effect of one step of one loop: the new row, the position reached, the record received
      from the repository, and whether a client was created. */
  datatype Move = Move(row: Row, pc: Pc, received: Option<ConnectionRecord>, created: bool)

  function Goto(row: Row, pc: Pc): Move {
    Move(row, pc, None, false)
  }

  function Proceeds(row: Row, c: Config, pc: Pc, now: Instant): Move {
    match pc
    case Starting =>
      var (row', claimed) := TryClaim(row, c.owner, c.lease, now);
      if claimed.None? || Terminal(claimed.value.health.state) then Goto(row', Ended)
      else Move(row', Renewing(claimed.value), claimed, false)
    case Renewing(record) =>
      var (row', renewed) := SqlRenewLease(row, record, c.owner, c.lease, now);
      if renewed.None? then Goto(row', Ended) else Move(row', Deciding(renewed.value), renewed, false)
    case Deciding(record) =>
      Goto(row, if Terminal(record.health.state) then Ended
                else if Future(record.retryAt, now) then Sleeping(record)
                else Acquiring(record))
    case Sleeping(record) =>
      Goto(row, if OwnsClaim(row, record, c.owner, now) then Renewing(record) else Ended)
    case Ready(record) => Move(row, Connecting(record), None, true)
    case Connecting(record) =>
      // one of the ownership checks made while connecting
      Goto(row, if OwnsClaim(row, record, c.owner, now) then pc else Ended)
    case Saving(record, update) =>
      var (row', saved) := SqlSaveClaimed(row, Updated(record, update, now), c.owner, update.release, now);
      if saved.None? then Goto(row', Ended) else Move(row', AfterSave(saved.value, update), saved, false)
    case Monitoring(record) =>
      var (row', renewed) := SqlRenewLease(row, record, c.owner, c.lease, now);
      if renewed.None? then Goto(row', Ended) else Move(row', Monitoring(renewed.value), renewed, false)
    case FailClosing(record) => Goto(SqlFailClosed(row, record, c.owner, now).0, Ended)
    case _ => Goto(row, pc)
  }

  function Advance(row: Row, c: Config, pc: Pc, input: Input, now: Instant): Move {
    match input
    case Proceed => Proceeds(row, c, pc, now)
    case ProxyAnswer(available) =>
      if !pc.Acquiring? then Goto(row, pc)
      else if !OwnsClaim(row, pc.record, c.owner, now) then Goto(row, Ended)
      else if available then Goto(row, Ready(pc.record))
      else Goto(row, Saving(pc.record, Outcome(Blocked, ProxyUnavailable, pc.record)))
    case AttemptEnds(attempt) =>
      // creating the client may itself end in any error; only an existing client can be authorized
      if pc.Connecting? || (pc.Ready? && !attempt.Authorized?)
      then Goto(row, Saving(pc.record, AttemptUpdate(c, pc.record, attempt, now)))
      else Goto(row, pc)
    case MonitorFails => Goto(row, if pc.Monitoring? then FailClosing(pc.record) else pc)
    case Drop => Goto(row, Ended)
  }

  /** The windows after the row's lease was granted, extended or given up. */
  function Track(windows: seq<Window>, row: Row, row': Row, now: Instant): seq<Window> {
    if row'.Some? && row'.value.leaseOwner.Some? && row'.value.leaseExpiresAt.Some? then
      if row.Some? && row.value.leaseOwner.Some? && row.value.fence == row'.value.fence && windows != [] then
        windows[|windows| - 1 := windows[|windows| - 1].(until := row'.value.leaseExpiresAt.value)]
      else
        windows + [Window(row'.value.leaseOwner.value, row'.value.fence, now, row'.value.leaseExpiresAt.value)]
    else if row.Some? && row.value.leaseOwner.Some? && windows != [] && windows[|windows| - 1].until > now then
      windows[|windows| - 1 := windows[|windows| - 1].(until := now)]
    else
      windows
  }

  /** Failures persisted since the last `active`, counted from what is written. */
  function CountFailures(failures: nat, pc: Pc, m: Move): nat {
    if pc.Saving? && m.received.Some? then
      if pc.update.state == Active then 0
      else if pc.update.errorCode in {Some(RetryExhausted), Some(RateLimited), Some(ConnectionFailed)} then failures + 1
      else failures
    else failures
  }

  function After(s: System, id: nat, m: Move): System
    requires id in s.loops
  {
    var pc := s.loops[id].pc;
    s.(row := m.row,
       loops := s.loops[id := s.loops[id].(pc := m.pc)],
       issued := if m.received.Some? && m.received.value.leaseOwner.Some? then s.issued + {m.received.value}
         else s.issued,
       windows := Track(s.windows, s.row, m.row, s.now),
       creations := if m.created && pc.Ready? then s.creations + [Creation(pc.record, s.row, s.now)] else s.creations,
       failures := CountFailures(s.failures, pc, m),
       resumes := if pc.Saving? && m.received.Some? && pc.update.state == Active then 0 else s.resumes)
  }

  /** The system after a `save` from outside the supervisors. */
  function Overwrite(s: System, record: ConnectionRecord, resumed: bool): System {
    var (row', accepted) := SqlSave(s.row, record);
    s.(row := row', resumes := if accepted && resumed then s.resumes + 1 else s.resumes)
  }

  function Step(s: System, e: Event): System {
    match e
    case Elapse(seconds) => if seconds < 0.0 then s else s.(now := s.now + seconds)
    case Start(id, config) =>
      if id in s.loops || config.lease <= 0.0 || config.maxRetries < 1 || config.maxRetries > s.maxRetries then s
      else s.(loops := s.loops[id := Loop(config, Starting)])
    case Act(id, input) =>
      if id !in s.loops then s
      else After(s, id, Advance(s.row, s.loops[id].config, s.loops[id].pc, input, s.now))
    case Force(state) =>
      if state != Paused && state != Archived then s
      else
        var row' := ForceTerminal(s.row, state, s.now).0;
        s.(row := row', windows := Track(s.windows, s.row, row', s.now))
    case Import(accountId, sessionId) => Overwrite(s, Imported(accountId, sessionId, s.now), false)
    case ResumeRead(operator) =>
      if s.row.Some? && s.row.value.health.state == Paused
      then s.(operators := s.operators[operator := s.row.value]) else s
    case ResumeSave(operator) =>
      if operator !in s.operators then s
      else Overwrite(s.(operators := s.operators - {operator}), Resumed(s.operators[operator], s.now), true)
  }

  function Run(s: System, events: seq<Event>): System
    decreases |events|
  {
    if events == [] then s else Run(Step(s, events[0]), events[1..])
  }

  /** The guard that `save` lacks: it lands on no row, or on one with the version it was made from
      (or it is refused because the row is leased). */
  predicate Orderly(s: System, e: Event) {
    match e
    case Import(_, _) => s.row.None? || s.row.value.leaseOwner.Some? || s.row.value.version == 0
    case ResumeSave(operator) =>
      (operator in s.operators && s.row.Some? && s.row.value.leaseOwner.None?) ==>
        s.row.value.version == s.operators[operator].version
    case _ => true
  }

  predicate OrderlyRun(s: System, events: seq<Event>)
    decreases |events|
  {
    events != [] ==> Orderly(s, events[0]) && OrderlyRun(Step(s, events[0]), events[1..])
  }
}
