/** The SQL-backed delivery repository of persistence.py. */
module DeliverySql {
  import opened Common
  import opened DeliveryModel

  /** A row of telegram_message_deliveries; the table maps the primary key to it. */
  datatype SqlRow = SqlRow(
    peerId: int,
    state: DeliveryState,
    externalMessageId: Option<string>,
    outcome: Option<DeliveryOutcome>,
    errorCode: Option<ErrorCode>,
    ownerId: Option<Uuid>,
    leaseExpiresAt: Option<Instant>,
    fence: nat)

  type Table = map<Key, SqlRow>

  function RowResult(row: SqlRow): Option<DeliveryResult> {
    if row.externalMessageId.None? || row.outcome.None? then None
    else Some(DeliveryResult(row.externalMessageId.value, row.outcome.value))
  }

  function NewRow(peerId: int, owner: Uuid, expiry: Instant): SqlRow {
    SqlRow(peerId, Pending, None, None, None, Some(owner), Some(expiry), 1)
  }

  predicate Expired(row: SqlRow, now: Instant) {
    row.leaseExpiresAt.None? || row.leaseExpiresAt.value <= now
  }

  predicate HeldBy(row: SqlRow, owner: Uuid, fence: nat) {
    row.state == Pending && row.ownerId == Some(owner) && row.fence == fence
  }

  /** What one transaction does to the row it locked. */
  function ReserveLocked(row: SqlRow, peerId: int, now: Instant): (SqlRow, Reservation)
  {
    if row.peerId != peerId then
      (row, Reservation(DoCompleted, None, row.fence))
    else if row.state == Completed then
      (row, Reservation(DoCompleted, RowResult(row), row.fence))
    else if row.state == Pending then
      if Expired(row, now) then
        (row.(state := Uncertain, ownerId := None, leaseExpiresAt := None), Reservation(DoReconcile, None, row.fence))
      else
        (row, Reservation(DoWait, None, row.fence))
    else
      (row, Reservation(DoReconcile, None, row.fence))
  }

  predicate CompleteWhere(row: SqlRow, owner: Uuid, fence: nat) {
    row.state == Uncertain || HeldBy(row, owner, fence)
  }

  function CompletedRow(row: SqlRow, result: DeliveryResult): SqlRow {
    row.(state := Completed, externalMessageId := Some(result.externalMessageId), outcome := Some(result.outcome),
         errorCode := None, ownerId := None, leaseExpiresAt := None)
  }

  function UncertainRow(row: SqlRow, code: ErrorCode): SqlRow {
    row.(state := Uncertain, errorCode := Some(code), ownerId := None, leaseExpiresAt := None)
  }

  function AllowResendLocked(row: SqlRow, owner: Uuid, expiry: Instant): (SqlRow, Reservation)
  {
    match row.state
    case Completed => (row, Reservation(DoCompleted, RowResult(row), row.fence))
    case Uncertain =>
      (row.(state := Pending, ownerId := Some(owner), leaseExpiresAt := Some(expiry), fence := row.fence + 1),
       Reservation(DoSend, None, row.fence + 1))
    case Pending => (row, Reservation(DoWait, None, row.fence))
  }

  /** One call run without interference, for example by a transaction that wins every race. */
  function Apply(table: Table, call: Call): (Table, Reply)
  {
    var key := call.op.cmd.key;
    match call.op
    case Reserve(cmd, now) =>
      if key !in table then
        (table[key := NewRow(cmd.peerId, call.owner, now + call.lease)], Reserved(Reservation(DoSend, None, 1)))
      else
        var (row, r) := ReserveLocked(table[key], cmd.peerId, now);
        (table[key := row], Reserved(r))
    case Complete(_, fence, result) =>
      if result.Some? && key in table && CompleteWhere(table[key], call.owner, fence) then
        (table[key := CompletedRow(table[key], result.value)], Done(true))
      else
        (table, Done(false))
    case MarkUncertain(_, fence, code) =>
      if key in table && HeldBy(table[key], call.owner, fence) then
        (table[key := UncertainRow(table[key], code)], Done(true))
      else
        (table, Done(false))
    case Renew(_, fence, now) =>
      if key in table && HeldBy(table[key], call.owner, fence) then
        (table[key := table[key].(leaseExpiresAt := Some(now + call.lease))], Done(true))
      else
        (table, Done(false))
    case AllowResend(_, now) =>
      if key !in table then
        (table, NotFound)
      else
        var (row, r) := AllowResendLocked(table[key], call.owner, now + call.lease);
        (table[key := row], Reserved(r))
  }

  /** Only the key's row may differ, it is not deleted, and its fence does not go back. */
  predicate OnlyKey(before: Table, after: Table, key: Key) {
    && before - {key} == after - {key}
    && (key in before ==>
          key in after && before[key].fence <= after[key].fence && before[key].peerId == after[key].peerId)
  }

  /** The database table, shared by every repository object in every process. */
  class MessageDeliveries {
    var rows: Table

    constructor ()
      ensures rows == map[]
    {
      rows := map[];
    }
  }

  class SqlAlchemyMessageDeliveryRepository {
    const table: MessageDeliveries
    const leaseSeconds: real
    const ownerId: Uuid

    constructor (table: MessageDeliveries, leaseSeconds: real, ownerId: Uuid)
      requires leaseSeconds > 0.0
      ensures this.table == table && this.leaseSeconds == leaseSeconds && this.ownerId == ownerId
    {
      this.table := table;
      this.leaseSeconds := leaseSeconds;
      this.ownerId := ownerId;
    }

    /** The call made by this object. */
    function By(op: Op): Call {
      Call(ownerId, leaseSeconds, op)
    }

    /** One reservation transaction. `rival` is the row another transaction commits for the key
        after this one has read that there is none; None as a result is the IntegrityError. */
    method ReserveOnce(cmd: Command, now: Instant, rival: Option<SqlRow>) returns (r: Option<Reservation>)
      modifies table
      ensures cmd.key in old(table.rows) || rival.None? ==>
        (r.Some? && (table.rows, Reserved(r.value)) == Apply(old(table.rows), By(Op.Reserve(cmd, now))))
      ensures cmd.key !in old(table.rows) && rival.Some? ==>
        r.None? && table.rows == old(table.rows)[cmd.key := rival.value]
    {
      if cmd.key !in table.rows {
        if rival.Some? {
          table.rows := table.rows[cmd.key := rival.value];
          return None;
        }
        table.rows := table.rows[cmd.key := NewRow(cmd.peerId, ownerId, now + leaseSeconds)];
        return Some(Reservation(DoSend, None, 1));
      }
      var (row, reservation) := ReserveLocked(table.rows[cmd.key], cmd.peerId, now);
      table.rows := table.rows[cmd.key := row];
      return Some(reservation);
    }

    /** Two attempts always suffice: a lost insert race leaves a row that is never deleted, so the
        final RuntimeError (None here) cannot happen, whatever rivals commit. */
    method Reserve(cmd: Command, times: seq<Instant>, rivals: seq<Option<SqlRow>>) returns (r: Option<Reservation>)
      requires |times| == |rivals| == 2
      modifies table
      ensures r.Some?
      ensures OnlyKey(old(table.rows), table.rows, cmd.key) && cmd.key in table.rows
      ensures cmd.key in old(table.rows) || rivals[0].None? ==>
        (table.rows, Reserved(r.value)) == Apply(old(table.rows), By(Op.Reserve(cmd, times[0])))
      ensures cmd.key !in old(table.rows) && rivals[0].Some? ==>
        (table.rows, Reserved(r.value))
          == Apply(old(table.rows)[cmd.key := rivals[0].value], By(Op.Reserve(cmd, times[1])))
    {
      r := None;
      var attempt := 0;
      while attempt < 2 && r.None?
        invariant 0 <= attempt <= 2
        invariant attempt == 0 ==> r.None? && table.rows == old(table.rows)
        invariant attempt >= 1 && r.None? ==>
          attempt == 1 && cmd.key !in old(table.rows) && rivals[0].Some?
          && table.rows == old(table.rows)[cmd.key := rivals[0].value]
        invariant r.Some? && attempt == 1 ==>
          (cmd.key in old(table.rows) || rivals[0].None?)
          && (table.rows, Reserved(r.value)) == Apply(old(table.rows), By(Op.Reserve(cmd, times[0])))
        invariant r.Some? && attempt == 2 ==>
          cmd.key !in old(table.rows) && rivals[0].Some?
          && (table.rows, Reserved(r.value))
               == Apply(old(table.rows)[cmd.key := rivals[0].value], By(Op.Reserve(cmd, times[1])))
        decreases 2 - attempt
      {
        r := ReserveOnce(cmd, times[attempt], rivals[attempt]);
        attempt := attempt + 1;
      }
    }

    method Complete(cmd: Command, fence: nat, result: Option<DeliveryResult>) returns (ok: bool)
      modifies table
      ensures (table.rows, Done(ok)) == Apply(old(table.rows), By(Op.Complete(cmd, fence, result)))
      ensures OnlyKey(old(table.rows), table.rows, cmd.key) && (!ok ==> table.rows == old(table.rows))
    {
      if result.None? {
        return false;
      }
      if cmd.key in table.rows && CompleteWhere(table.rows[cmd.key], ownerId, fence) {
        table.rows := table.rows[cmd.key := CompletedRow(table.rows[cmd.key], result.value)];
        return true;
      }
      return false;
    }

    method MarkUncertain(cmd: Command, fence: nat, code: ErrorCode) returns (ok: bool)
      modifies table
      ensures (table.rows, Done(ok)) == Apply(old(table.rows), By(Op.MarkUncertain(cmd, fence, code)))
      ensures OnlyKey(old(table.rows), table.rows, cmd.key) && (!ok ==> table.rows == old(table.rows))
    {
      if cmd.key in table.rows && HeldBy(table.rows[cmd.key], ownerId, fence) {
        table.rows := table.rows[cmd.key := UncertainRow(table.rows[cmd.key], code)];
        return true;
      }
      return false;
    }

    method Renew(cmd: Command, fence: nat, now: Instant) returns (ok: bool)
      modifies table
      ensures (table.rows, Done(ok)) == Apply(old(table.rows), By(Op.Renew(cmd, fence, now)))
      ensures OnlyKey(old(table.rows), table.rows, cmd.key) && (!ok ==> table.rows == old(table.rows))
    {
      if cmd.key in table.rows && HeldBy(table.rows[cmd.key], ownerId, fence) {
        table.rows := table.rows[cmd.key := table.rows[cmd.key].(leaseExpiresAt := Some(now + leaseSeconds))];
        return true;
      }
      return false;
    }

    method AllowResendAfterReconcileMiss(cmd: Command, now: Instant) returns (r: Reply)
      modifies table
      ensures (table.rows, r) == Apply(old(table.rows), By(Op.AllowResend(cmd, now)))
      ensures OnlyKey(old(table.rows), table.rows, cmd.key)
      ensures r.Reserved? && r.reservation.action == DoSend ==>
        table.rows[cmd.key].fence == old(table.rows)[cmd.key].fence + 1
    {
      if cmd.key !in table.rows {
        return NotFound;
      }
      var (row, reservation) := AllowResendLocked(table.rows[cmd.key], ownerId, now + leaseSeconds);
      table.rows := table.rows[cmd.key := row];
      return Reserved(reservation);
    }
  }
}
