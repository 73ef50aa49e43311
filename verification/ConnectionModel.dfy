/** The persisted state of one account's connection, and the operations on its row.

    The dictionary form (runtime/connection.py) and the SQL form (postgres_state.py) are given side
    by side where they differ. */
module ConnectionModel {
  import opened Common

  datatype HealthState = Quarantine | Active | Paused | ReauthRequired | Limited | Blocked | Archived

  datatype HealthError =
    | ProxyUnavailable
    | AuthorizationLost
    | AccountBlocked
    | RetryExhausted
    | RateLimited
    | ConnectionFailed
    | MonitorFailed

  datatype Health = Health(
    state: HealthState,
    lastSeenAt: Option<Instant>,
    proxyIp: Option<string>,
    latencyMs: Option<nat>,
    errorCode: Option<HealthError>)

  datatype ConnectionRecord = ConnectionRecord(
    accountId: Uuid,
    sessionId: Uuid,
    health: Health,
    retryCount: nat,
    retryAt: Option<Instant>,
    version: nat,
    leaseOwner: Option<Uuid>,
    leaseExpiresAt: Option<Instant>,
    fence: nat)

  type Row = Option<ConnectionRecord>

  predicate Terminal(state: HealthState) {
    state == Paused || state == ReauthRequired || state == Blocked || state == Archived
  }

  /** The lease ends at or before now. */
  predicate Lapsed(expiry: Option<Instant>, now: Instant) {
    expiry.Some? && expiry.value <= now
  }

  predicate Live(expiry: Option<Instant>, now: Instant) {
    expiry.Some? && expiry.value > now
  }

  /** Some other owner's lease blocks a claim. */
  predicate LeasedOut(record: ConnectionRecord, now: Instant) {
    record.leaseOwner.Some? && !Lapsed(record.leaseExpiresAt, now)
  }

  function Claimed(record: ConnectionRecord, owner: Uuid, lease: real, now: Instant): ConnectionRecord {
    record.(version := record.version + 1, leaseOwner := Some(owner), leaseExpiresAt := Some(now + lease),
        fence := record.fence + 1)
  }

  /** The new row and the reply of `try_claim`; terminal records are handed back unclaimed. */
  function TryClaim(row: Row, owner: Uuid, lease: real, now: Instant): (Row, Option<ConnectionRecord>)
  {
    if row.None? then (row, None)
    else if Terminal(row.value.health.state) then (row, row)
    else if LeasedOut(row.value, now) then (row, None)
    else (Some(Claimed(row.value, owner, lease, now)), Some(Claimed(row.value, owner, lease, now)))
  }

  /** Version, owner and fence of the row are those of the caller's record. */
  predicate SameClaim(current: ConnectionRecord, candidate: ConnectionRecord, owner: Uuid) {
    current.version == candidate.version && current.leaseOwner == Some(owner) && current.fence == candidate.fence
  }

  /** `_claim_matches` of the SQL form. */
  predicate ClaimMatches(current: ConnectionRecord, candidate: ConnectionRecord, owner: Uuid, now: Instant,
                         requireLive: bool) {
    && SameClaim(current, candidate, owner)
    && (!requireLive || Live(current.leaseExpiresAt, now))
    && current.health.state != Archived
  }

  function Saved(record: ConnectionRecord, owner: Uuid, release: bool): ConnectionRecord {
    record.(version := record.version + 1,
            leaseOwner := if release then None else Some(owner),
            leaseExpiresAt := if release then None else record.leaseExpiresAt)
  }

  function SqlSaveClaimed(row: Row, record: ConnectionRecord, owner: Uuid, release: bool, now: Instant)
    : (Row, Option<ConnectionRecord>)
  {
    if row.Some? && ClaimMatches(row.value, record, owner, now, true)
    then (Some(Saved(record, owner, release)), Some(Saved(record, owner, release)))
    else (row, None)
  }

  function MemorySaveClaimed(row: Row, record: ConnectionRecord, owner: Uuid, release: bool, now: Instant)
    : (Row, Option<ConnectionRecord>)
  {
    if row.Some? && SameClaim(row.value, record, owner) && row.value.health.state != Archived &&
        !Lapsed(row.value.leaseExpiresAt, now)
    then (Some(Saved(record, owner, release)), Some(Saved(record, owner, release)))
    else (row, None)
  }

  function Forced(record: ConnectionRecord, state: HealthState, now: Instant): ConnectionRecord {
    record.(health := record.health.(state := state, lastSeenAt := Some(now), errorCode := None),
            retryAt := None, version := record.version + 1,
            leaseOwner := None, leaseExpiresAt := None, fence := record.fence + 1)
  }

  /** None as a reply stands for the KeyError. */
  function ForceTerminal(row: Row, state: HealthState, now: Instant): (Row, Option<ConnectionRecord>)
  {
    if row.None? || row.value.health.state == Archived then (row, row)
    else (Some(Forced(row.value, state, now)), Some(Forced(row.value, state, now)))
  }

  function Renewed(record: ConnectionRecord, lease: real, now: Instant): ConnectionRecord {
    record.(version := record.version + 1, leaseExpiresAt := Some(now + lease))
  }

  /** The SQL form renews the row it locked. */
  function SqlRenewLease(row: Row, record: ConnectionRecord, owner: Uuid, lease: real, now: Instant)
    : (Row, Option<ConnectionRecord>)
  {
    if row.Some? && ClaimMatches(row.value, record, owner, now, true) && !Terminal(row.value.health.state)
    then (Some(Renewed(row.value, lease, now)), Some(Renewed(row.value, lease, now)))
    else (row, None)
  }

  /** The dictionary form writes the caller's record. */
  function MemoryRenewLease(row: Row, record: ConnectionRecord, owner: Uuid, lease: real, now: Instant)
    : (Row, Option<ConnectionRecord>)
  {
    if row.Some? && SameClaim(row.value, record, owner) && Live(row.value.leaseExpiresAt, now) &&
        !Terminal(row.value.health.state)
    then (Some(Renewed(record, lease, now)), Some(Renewed(record, lease, now)))
    else (row, None)
  }

  function Closed(current: ConnectionRecord, now: Instant): ConnectionRecord {
    current.(health := Health(Quarantine, Some(now), None, None, Some(MonitorFailed)),
             retryAt := None, version := current.version + 1, leaseOwner := None, leaseExpiresAt := None)
  }

  function SqlFailClosed(row: Row, record: ConnectionRecord, owner: Uuid, now: Instant): (Row, Option<ConnectionRecord>)
  {
    if row.Some? && ClaimMatches(row.value, record, owner, now, false)
    then (Some(Closed(row.value, now)), Some(Closed(row.value, now)))
    else (row, None)
  }

  function MemoryFailClosed(row: Row, record: ConnectionRecord, owner: Uuid, now: Instant)
    : (Row, Option<ConnectionRecord>)
  {
    if row.Some? && SameClaim(row.value, record, owner)
    then (Some(Closed(row.value, now)), Some(Closed(row.value, now)))
    else (row, None)
  }

  /** The unleased `save` of the SQL form: the caller's version and fence are written as they are. It
      is refused when either side has a lease owner. */
  function SqlSave(row: Row, record: ConnectionRecord): (Row, bool)
  {
    if row.Some? && (row.value.leaseOwner.Some? || record.leaseOwner.Some?) then (row, false)
    else (Some(record), true)
  }

  /** The record written by a (re-)import of an account. */
  function Imported(accountId: Uuid, sessionId: Uuid, now: Instant): ConnectionRecord {
    ConnectionRecord(accountId, sessionId, Health(Quarantine, Some(now), None, None, None), 0, None, 0, None, None, 0)
  }

  /** The record written by an operator who resumes a paused account. */
  function Resumed(record: ConnectionRecord, now: Instant): ConnectionRecord {
    record.(health := record.health.(state := Quarantine, lastSeenAt := Some(now), errorCode := None))
  }

  function RowOf(records: map<Uuid, ConnectionRecord>, account: Uuid): Row {
    if account in records then Some(records[account]) else None
  }

  function Put(records: map<Uuid, ConnectionRecord>, account: Uuid, row: Row): map<Uuid, ConnectionRecord> {
    if row.Some? then records[account := row.value] else records
  }

  /** No other account's row appears, goes or changes. */
  predicate OthersUntouched(before: map<Uuid, ConnectionRecord>, after: map<Uuid, ConnectionRecord>, account: Uuid) {
    before - {account} == after - {account}
  }

  /** The reply is the new row, one version further than the one it replaces. */
  predicate WroteNext(before: map<Uuid, ConnectionRecord>, after: map<Uuid, ConnectionRecord>, account: Uuid,
                      written: ConnectionRecord) {
    && account in before && account in after
    && after[account] == written && written.version == before[account].version + 1
    && before[account].fence <= written.fence <= before[account].fence + 1
  }
}
