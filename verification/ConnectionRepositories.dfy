/** The two connection repositories as objects that overwrite their rows. */
module ConnectionRepositories {
  import opened Common
  import opened ConnectionModel

  class InMemoryConnectionRepository {
    var records: map<Uuid, ConnectionRecord>
    var history: seq<ConnectionRecord>

    constructor (records: map<Uuid, ConnectionRecord>)
      ensures this.records == records && history == []
    {
      this.records := records;
      this.history := [];
    }

    method Save(record: ConnectionRecord)
      modifies this
      ensures records == old(records)[record.accountId := record]
      ensures history == old(history) + [record]
    {
      records := records[record.accountId := record];
      history := history + [record];
    }

    method TryClaim(account: Uuid, owner: Uuid, lease: real, now: Instant) returns (r: Option<ConnectionRecord>)
      modifies `records
      ensures var (row, reply) := ConnectionModel.TryClaim(RowOf(old(records), account), owner, lease, now);
              records == Put(old(records), account, row) && r == reply
      ensures OthersUntouched(old(records), records, account)
      ensures r.Some? && !Terminal(r.value.health.state) ==>
        WroteNext(old(records), records, account, r.value) && r.value.leaseOwner == Some(owner)
      ensures r.None? || Terminal(r.value.health.state) ==> records == old(records)
    {
      if account !in records {
        return None;
      }
      var record := records[account];
      if Terminal(record.health.state) {
        assert records == records[account := record];
        return Some(record);
      }
      if record.leaseOwner.Some? && (record.leaseExpiresAt.None? || record.leaseExpiresAt.value > now) {
        assert records == records[account := record];
        return None;
      }
      var claimed := record.(version := record.version + 1, leaseOwner := Some(owner),
          leaseExpiresAt := Some(now + lease), fence := record.fence + 1);
      records := records[account := claimed];
      return Some(claimed);
    }

    method SaveClaimed(record: ConnectionRecord, owner: Uuid, release: bool, now: Instant)
      returns (r: Option<ConnectionRecord>)
      modifies this
      ensures var (row, reply) := MemorySaveClaimed(RowOf(old(records), record.accountId), record, owner, release, now);
              records == Put(old(records), record.accountId, row) && r == reply
      ensures OthersUntouched(old(records), records, record.accountId)
      ensures r.Some? ==> WroteNext(old(records), records, record.accountId, r.value)
      ensures r.None? ==> records == old(records)
      ensures history == if r.Some? then old(history) + [r.value] else old(history)
    {
      var account := record.accountId;
      if account !in records {
        return None;
      }
      var current := records[account];
      if || current.version != record.version
         || current.leaseOwner != Some(owner)
         || current.health.state == Archived
         || current.fence != record.fence
         || (current.leaseExpiresAt.Some? && current.leaseExpiresAt.value <= now)
      {
        assert records == records[account := current];
        return None;
      }
      var saved := record.(version := record.version + 1,
        leaseOwner := if release then None else Some(owner),
        leaseExpiresAt := if release then None else record.leaseExpiresAt);
      records := records[account := saved];
      history := history + [saved];
      return Some(saved);
    }

    method ForceTerminal(account: Uuid, state: HealthState, now: Instant) returns (r: Option<ConnectionRecord>)
      modifies this
      ensures var (row, reply) := ConnectionModel.ForceTerminal(RowOf(old(records), account), state, now);
              records == Put(old(records), account, row) && r == reply
      ensures OthersUntouched(old(records), records, account)
      ensures r.Some? && records != old(records) ==>
        WroteNext(old(records), records, account, r.value) && r.value.leaseOwner.None?
      ensures history == if account in old(records) && old(records)[account].health.state != Archived
                         then old(history) + [records[account]] else old(history)
    {
      if account !in records {
        return None;
      }
      var record := records[account];
      if record.health.state == Archived {
        assert records == records[account := record];
        return Some(record);
      }
      var health := record.health.(state := state, lastSeenAt := Some(now), errorCode := None);
      var saved := record.(health := health, retryAt := None, version := record.version + 1,
        leaseOwner := None, leaseExpiresAt := None, fence := record.fence + 1);
      records := records[account := saved];
      history := history + [saved];
      return Some(saved);
    }

    method RenewLease(record: ConnectionRecord, owner: Uuid, lease: real, now: Instant)
      returns (r: Option<ConnectionRecord>)
      modifies `records
      ensures var (row, reply) := MemoryRenewLease(RowOf(old(records), record.accountId), record, owner, lease, now);
              records == Put(old(records), record.accountId, row) && r == reply
      ensures OthersUntouched(old(records), records, record.accountId)
      ensures r.Some? ==> WroteNext(old(records), records, record.accountId, r.value)
      ensures r.None? ==> records == old(records)
    {
      var account := record.accountId;
      if account !in records {
        return None;
      }
      var current := records[account];
      if || current.version != record.version || current.leaseOwner != Some(owner)
         || current.fence != record.fence || current.leaseExpiresAt.None?
         || current.leaseExpiresAt.value <= now || Terminal(current.health.state)
      {
        assert records == records[account := current];
        return None;
      }
      var saved := record.(version := record.version + 1, leaseExpiresAt := Some(now + lease));
      records := records[account := saved];
      return Some(saved);
    }

    method FailClosed(record: ConnectionRecord, owner: Uuid, now: Instant) returns (r: Option<ConnectionRecord>)
      modifies this
      ensures var (row, reply) := MemoryFailClosed(RowOf(old(records), record.accountId), record, owner, now);
              records == Put(old(records), record.accountId, row) && r == reply
      ensures OthersUntouched(old(records), records, record.accountId)
      ensures r.Some? ==> WroteNext(old(records), records, record.accountId, r.value)
      ensures r.None? ==> records == old(records)
      ensures history == if r.Some? then old(history) + [r.value] else old(history)
    {
      var account := record.accountId;
      if account !in records {
        return None;
      }
      var current := records[account];
      if current.version != record.version || current.leaseOwner != Some(owner) || current.fence != record.fence {
        assert records == records[account := current];
        return None;
      }
      var health := current.health.(state := Quarantine, lastSeenAt := Some(now), proxyIp := None, latencyMs := None,
          errorCode := Some(MonitorFailed));
      var saved := current.(health := health, retryAt := None, version := current.version + 1, leaseOwner := None,
          leaseExpiresAt := None);
      records := records[account := saved];
      history := history + [saved];
      return Some(saved);
    }
  }

  /** Every method is one transaction that locks the account's row first. */
  class SqlAlchemyConnectionRepository {
    var rows: map<Uuid, ConnectionRecord>

    constructor ()
      ensures rows == map[]
    {
      rows := map[];
    }

    method Save(record: ConnectionRecord) returns (ok: bool)
      modifies this
      ensures var (row, accepted) := SqlSave(RowOf(old(rows), record.accountId), record);
              rows == Put(old(rows), record.accountId, row) && ok == accepted
      ensures OthersUntouched(old(rows), rows, record.accountId)
    {
      var account := record.accountId;
      if account in rows && (rows[account].leaseOwner.Some? || record.leaseOwner.Some?) {
        assert rows == rows[account := rows[account]];
        return false;
      }
      rows := rows[account := record];
      return true;
    }

    method TryClaim(account: Uuid, owner: Uuid, lease: real, now: Instant) returns (r: Option<ConnectionRecord>)
      modifies this
      ensures var (row, reply) := ConnectionModel.TryClaim(RowOf(old(rows), account), owner, lease, now);
              rows == Put(old(rows), account, row) && r == reply
      ensures OthersUntouched(old(rows), rows, account)
      ensures r.Some? && !Terminal(r.value.health.state) ==>
        WroteNext(old(rows), rows, account, r.value) && r.value.leaseOwner == Some(owner)
      ensures r.None? || Terminal(r.value.health.state) ==> rows == old(rows)
    {
      if account !in rows {
        return None;
      }
      var record := rows[account];
      if Terminal(record.health.state) {
        assert rows == rows[account := record];
        return Some(record);
      }
      if record.leaseOwner.Some? && (record.leaseExpiresAt.None? || record.leaseExpiresAt.value > now) {
        assert rows == rows[account := record];
        return None;
      }
      rows := rows[account := Claimed(record, owner, lease, now)];
      return Some(rows[account]);
    }

    method SaveClaimed(record: ConnectionRecord, owner: Uuid, release: bool, now: Instant)
      returns (r: Option<ConnectionRecord>)
      modifies this
      ensures var (row, reply) := SqlSaveClaimed(RowOf(old(rows), record.accountId), record, owner, release, now);
              rows == Put(old(rows), record.accountId, row) && r == reply
      ensures OthersUntouched(old(rows), rows, record.accountId)
      ensures r.Some? ==> WroteNext(old(rows), rows, record.accountId, r.value)
      ensures r.None? ==> rows == old(rows)
    {
      var account := record.accountId;
      if account !in rows {
        return None;
      }
      if !ClaimMatches(rows[account], record, owner, now, true) {
        assert rows == rows[account := rows[account]];
        return None;
      }
      rows := rows[account := Saved(record, owner, release)];
      return Some(rows[account]);
    }

    method ForceTerminal(account: Uuid, state: HealthState, now: Instant) returns (r: Option<ConnectionRecord>)
      modifies this
      ensures var (row, reply) := ConnectionModel.ForceTerminal(RowOf(old(rows), account), state, now);
              rows == Put(old(rows), account, row) && r == reply
      ensures OthersUntouched(old(rows), rows, account)
      ensures r.Some? && rows != old(rows) ==> WroteNext(old(rows), rows, account, r.value) && r.value.leaseOwner.None?
    {
      if account !in rows {
        return None;
      }
      if rows[account].health.state == Archived {
        assert rows == rows[account := rows[account]];
        return Some(rows[account]);
      }
      rows := rows[account := Forced(rows[account], state, now)];
      return Some(rows[account]);
    }

    method RenewLease(record: ConnectionRecord, owner: Uuid, lease: real, now: Instant)
      returns (r: Option<ConnectionRecord>)
      modifies this
      ensures var (row, reply) := SqlRenewLease(RowOf(old(rows), record.accountId), record, owner, lease, now);
              rows == Put(old(rows), record.accountId, row) && r == reply
      ensures OthersUntouched(old(rows), rows, record.accountId)
      ensures r.Some? ==> WroteNext(old(rows), rows, record.accountId, r.value)
      ensures r.None? ==> rows == old(rows)
    {
      var account := record.accountId;
      if account !in rows {
        return None;
      }
      if !ClaimMatches(rows[account], record, owner, now, true) || Terminal(rows[account].health.state) {
        assert rows == rows[account := rows[account]];
        return None;
      }
      rows := rows[account := Renewed(rows[account], lease, now)];
      return Some(rows[account]);
    }

    method FailClosed(record: ConnectionRecord, owner: Uuid, now: Instant) returns (r: Option<ConnectionRecord>)
      modifies this
      ensures var (row, reply) := SqlFailClosed(RowOf(old(rows), record.accountId), record, owner, now);
              rows == Put(old(rows), record.accountId, row) && r == reply
      ensures OthersUntouched(old(rows), rows, record.accountId)
      ensures r.Some? ==> WroteNext(old(rows), rows, record.accountId, r.value)
      ensures r.None? ==> rows == old(rows)
    {
      var account := record.accountId;
      if account !in rows {
        return None;
      }
      if !ClaimMatches(rows[account], record, owner, now, false) {
        assert rows == rows[account := rows[account]];
        return None;
      }
      rows := rows[account := Closed(rows[account], now)];
      return Some(rows[account]);
    }
  }
}
