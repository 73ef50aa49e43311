/** The dictionary-backed delivery repository of gateway.py. */
module DeliveryMemory {
  import opened Common
  import opened DeliveryModel

  datatype DeliveryRecord = DeliveryRecord(
    peerId: int,
    state: DeliveryState,
    result: Option<DeliveryResult>,
    errorCode: Option<ErrorCode>,
    owner: Option<Uuid>,
    leaseExpiresAt: Option<Instant>,
    fence: nat)

  type Records = map<Key, DeliveryRecord>

  predicate LeaseOver(expiry: Option<Instant>, now: Instant) {
    expiry.None? || expiry.value <= now
  }

  /** The record is pending under exactly this owner and fence. */
  predicate HeldBy(record: DeliveryRecord, owner: Uuid, fence: nat) {
    record.state == Pending && record.owner == Some(owner) && record.fence == fence
  }

  function ReserveSpec(records: Records, cmd: Command, owner: Uuid, lease: real, now: Instant): (Records, Reservation)
  {
    if cmd.key !in records then
      (records[cmd.key := DeliveryRecord(cmd.peerId, Pending, None, None, Some(owner), Some(now + lease), 1)],
       Reservation(DoSend, None, 1))
    else
      var record := records[cmd.key];
      if record.peerId != cmd.peerId then
        (records, Reservation(DoCompleted, None, record.fence))
      else if record.state == Completed then
        (records, Reservation(DoCompleted, record.result, record.fence))
      else if record.state == Pending && LeaseOver(record.leaseExpiresAt, now) then
        (records[cmd.key := record.(state := Uncertain, owner := None, leaseExpiresAt := None)],
         Reservation(DoReconcile, None, record.fence))
      else if record.state == Uncertain then
        (records, Reservation(DoReconcile, None, record.fence))
      else
        (records, Reservation(DoWait, None, record.fence))
  }

  function CompleteSpec(records: Records, cmd: Command, owner: Uuid, fence: nat, result: Option<DeliveryResult>)
    : (Records, bool)
  {
    if result.None? || cmd.key !in records then
      (records, false)
    else
      var current := records[cmd.key];
      if current.state == Uncertain || HeldBy(current, owner, fence) then
        (records[cmd.key := current.(state := Completed, result := result, errorCode := None)], true)
      else
        (records, false)
  }

  function MarkUncertainSpec(records: Records, cmd: Command, owner: Uuid, fence: nat, code: ErrorCode): (Records, bool)
  {
    if cmd.key in records && HeldBy(records[cmd.key], owner, fence) then
      (records[cmd.key := records[cmd.key].(state := Uncertain, errorCode := Some(code), owner := None,
          leaseExpiresAt := None)],
       true)
    else
      (records, false)
  }

  function RenewSpec(records: Records, cmd: Command, owner: Uuid, lease: real, fence: nat, now: Instant)
    : (Records, bool)
  {
    if cmd.key in records && HeldBy(records[cmd.key], owner, fence) then
      (records[cmd.key := records[cmd.key].(leaseExpiresAt := Some(now + lease))], true)
    else
      (records, false)
  }

  /** None stands for the KeyError raised when there is no row. */
  function AllowResendSpec(records: Records, cmd: Command, owner: Uuid, lease: real, now: Instant)
    : (Records, Option<Reservation>)
  {
    if cmd.key !in records then
      (records, None)
    else
      var current := records[cmd.key];
      match current.state
      case Completed => (records, Some(Reservation(DoCompleted, current.result, current.fence)))
      case Uncertain =>
        (records[cmd.key := current.(state := Pending, owner := Some(owner), leaseExpiresAt := Some(now + lease),
            fence := current.fence + 1)],
         Some(Reservation(DoSend, None, current.fence + 1)))
      case Pending => (records, Some(Reservation(DoWait, None, current.fence)))
  }

  function Apply(records: Records, call: Call): (Records, Reply)
  {
    match call.op
    case Reserve(cmd, now) =>
      var (records', r) := ReserveSpec(records, cmd, call.owner, call.lease, now);
      (records', Reserved(r))
    case Complete(cmd, fence, result) =>
      var (records', ok) := CompleteSpec(records, cmd, call.owner, fence, result);
      (records', Done(ok))
    case MarkUncertain(cmd, fence, code) =>
      var (records', ok) := MarkUncertainSpec(records, cmd, call.owner, fence, code);
      (records', Done(ok))
    case Renew(cmd, fence, now) =>
      var (records', ok) := RenewSpec(records, cmd, call.owner, call.lease, fence, now);
      (records', Done(ok))
    case AllowResend(cmd, now) =>
      var (records', r) := AllowResendSpec(records, cmd, call.owner, call.lease, now);
      (records', if r.Some? then Reserved(r.value) else NotFound)
  }

  /** Rows loaded by a fresh repository object have no live sender: pending becomes uncertain. */
  function Recovered(record: DeliveryRecord): DeliveryRecord {
    if record.state == Pending then record.(state := Uncertain) else record
  }

  /** `settled[k]` is the state of the asyncio event that duplicate callers could wait on. */
  class InMemoryMessageDeliveryRepository {
    var records: Records
    var settled: map<Key, bool>
    const leaseSeconds: real
    const ownerId: Uuid

    /** There is an event per row, and it is set exactly when no sender holds the row. */
    ghost predicate Valid()
      reads this
    {
      && settled.Keys == records.Keys
      && forall k <- records :: settled[k] <==> records[k].state != Pending
    }

    constructor (loaded: Records, leaseSeconds: real, ownerId: Uuid)
      ensures Valid()
      ensures this.leaseSeconds == leaseSeconds && this.ownerId == ownerId
      ensures records.Keys == loaded.Keys
      ensures forall k <- loaded :: records[k] == Recovered(loaded[k])
    {
      this.records := map k | k in loaded :: Recovered(loaded[k]);
      this.settled := map k | k in loaded :: Recovered(loaded[k]).state != Pending;
      this.leaseSeconds := leaseSeconds;
      this.ownerId := ownerId;
    }

    method Reserve(cmd: Command, now: Instant) returns (r: Reservation)
      requires Valid()
      modifies this
      ensures Valid()
      ensures (records, r) == ReserveSpec(old(records), cmd, ownerId, leaseSeconds, now)
    {
      if cmd.key !in records {
        records := records[cmd.key := DeliveryRecord(cmd.peerId, Pending, None, None, Some(ownerId),
            Some(now + leaseSeconds), 1)];
        settled := settled[cmd.key := false];
        return Reservation(DoSend, None, 1);
      }
      var record := records[cmd.key];
      if record.peerId != cmd.peerId {
        return Reservation(DoCompleted, None, record.fence);
      }
      if record.state == Completed {
        return Reservation(DoCompleted, record.result, record.fence);
      }
      if record.state == Pending && LeaseOver(record.leaseExpiresAt, now) {
        records := records[cmd.key := record.(state := Uncertain, owner := None, leaseExpiresAt := None)];
        settled := settled[cmd.key := true];
        return Reservation(DoReconcile, None, record.fence);
      }
      if record.state == Uncertain {
        return Reservation(DoReconcile, None, record.fence);
      }
      return Reservation(DoWait, None, record.fence);
    }

    method Complete(cmd: Command, fence: nat, result: Option<DeliveryResult>) returns (ok: bool)
      requires Valid()
      modifies this
      ensures Valid()
      ensures (records, ok) == CompleteSpec(old(records), cmd, ownerId, fence, result)
    {
      if result.None? || cmd.key !in records {
        return false;
      }
      var current := records[cmd.key];
      if current.state == Pending && (current.owner != Some(ownerId) || current.fence != fence) {
        return false;
      }
      if current.state != Pending && current.state != Uncertain {
        return false;
      }
      records := records[cmd.key := current.(state := Completed, result := result, errorCode := None)];
      settled := settled[cmd.key := true];
      return true;
    }

    method MarkUncertain(cmd: Command, fence: nat, code: ErrorCode) returns (ok: bool)
      requires Valid()
      modifies this
      ensures Valid()
      ensures (records, ok) == MarkUncertainSpec(old(records), cmd, ownerId, fence, code)
    {
      if cmd.key !in records || !HeldBy(records[cmd.key], ownerId, fence) {
        return false;
      }
      var current := records[cmd.key];
      records := records[cmd.key := current.(state := Uncertain, errorCode := Some(code), owner := None,
          leaseExpiresAt := None)];
      settled := settled[cmd.key := true];
      return true;
    }

    method Renew(cmd: Command, fence: nat, now: Instant) returns (ok: bool)
      requires Valid()
      modifies this
      ensures Valid()
      ensures (records, ok) == RenewSpec(old(records), cmd, ownerId, leaseSeconds, fence, now)
    {
      if cmd.key !in records || !HeldBy(records[cmd.key], ownerId, fence) {
        return false;
      }
      records := records[cmd.key := records[cmd.key].(leaseExpiresAt := Some(now + leaseSeconds))];
      return true;
    }

    method AllowResendAfterReconcileMiss(cmd: Command, now: Instant) returns (r: Option<Reservation>)
      requires Valid()
      modifies this
      ensures Valid()
      ensures (records, r) == AllowResendSpec(old(records), cmd, ownerId, leaseSeconds, now)
    {
      if cmd.key !in records {
        return None;
      }
      var current := records[cmd.key];
      if current.state == Completed {
        return Some(Reservation(DoCompleted, current.result, current.fence));
      }
      if current.state == Uncertain {
        var fence := current.fence + 1;
        records := records[cmd.key := current.(state := Pending, owner := Some(ownerId),
            leaseExpiresAt := Some(now + leaseSeconds), fence := fence)];
        settled := settled[cmd.key := false];
        return Some(Reservation(DoSend, None, fence));
      }
      return Some(Reservation(DoWait, None, current.fence));
    }
  }
}
