/** Values exchanged between the Telegram gateway and its delivery repository. */
module DeliveryModel {
  import opened Common

  datatype ErrorCode =
    | InvalidPeer
    | PrivacyRestricted
    | PaidMessageRequired
    | RateLimited
    | AuthorizationLost
    | AccountBlocked
    | Timeout
    | TelegramUnknown
    | ConnectionInactive

  datatype DeliveryOutcome = Sent | Reconciled

  datatype DeliveryResult = DeliveryResult(externalMessageId: string, outcome: DeliveryOutcome)

  datatype DeliveryState = Pending | Uncertain | Completed

  /** The primary key of a delivery row. */
  datatype Key = Key(accountId: Uuid, idempotencyKey: string)

  datatype Command = Command(key: Key, peerId: int)

  datatype Action = DoSend | DoWait | DoReconcile | DoCompleted

  datatype Reservation = Reservation(action: Action, result: Option<DeliveryResult>, fence: nat)

  /** One repository call, with the clock reading it uses. */
  datatype Op =
    | Reserve(cmd: Command, now: Instant)
    | Complete(cmd: Command, fence: nat, result: Option<DeliveryResult>)
    | MarkUncertain(cmd: Command, fence: nat, code: ErrorCode)
    | Renew(cmd: Command, fence: nat, now: Instant)
    | AllowResend(cmd: Command, now: Instant)

  /** A call together with the identity and lease length of the repository object that makes it. */
  datatype Call = Call(owner: Uuid, lease: real, op: Op)

  /** What a caller sees: a reservation, a boolean, or a KeyError. */
  datatype Reply = Reserved(reservation: Reservation) | Done(success: bool) | NotFound
}
