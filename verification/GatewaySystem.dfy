/** Any number of gateway `send` calls, in any number of processes, running over one durable row.

    Every repository transaction is one atomic step, except that reading an absent row and inserting
    it are two. The clock reading of a step is arbitrary, so clocks may disagree and leases may
    expire at any moment. `Drop` ends a call at any await: a crash, a cancellation, a lost process. */
module GatewaySystem {
  import opened Common
  import opened DeliveryModel
  import opened DeliverySql

  /** What is fixed for one call: its repository's owner id and lease, the peer of its command,
      whether its gateway has approved remote deduplication and an active connection. */
  datatype Config = Config(owner: Uuid, lease: real, peerId: int, deduplicates: bool, connected: bool)

  /** Why a reconciliation is under way decides what a miss means. */
  datatype Why = FromReserve | AfterError(code: ErrorCode) | AfterLostComplete

  /** Where a call stands in `_send`, `_send_reserved`, `_send_with_renewal` or `_reconcile`. */
  datatype Pc =
    | Idle
    | Reserving(attempt: nat)
    | Inserting(attempt: nat)
    | Waiting
    | Reconciling(fence: nat, why: Why)
    | SavingReconciled(fence: nat, result: DeliveryResult, why: Why)
    | Missed(fence: nat)
    | Granted(reservation: Reservation)
    | InFlight(fence: nat)
    | MarkingTimeout(fence: nat)
    | MarkingError(fence: nat, code: ErrorCode)
    | MarkingCancelled(fence: nat)
    | SavingSent(fence: nat, result: DeliveryResult)
    | Returned(result: DeliveryResult)
    | Raised(code: ErrorCode)
    | RuntimeFailure
    | Dropped

  datatype Sender = Sender(config: Config, pc: Pc)

  /** A call of the network client's `send_message`. */
  datatype Invocation = Invocation(sender: nat, fence: nat)

  /** `grants` and `sends` are histories: who was told to send, and which sends reached the network. */
  datatype System = System(
    row: Option<SqlRow>,
    senders: map<nat, Sender>,
    grants: seq<nat>,
    sends: seq<Invocation>)

  datatype Input =
    | Proceed(now: Instant)
    | RemoteId(id: string)
    | RemoteNone
    | RemoteError(code: ErrorCode)
    | RenewDue(now: Instant)
    | DeadlinePassed
    | Cancel
    | BodyMissing
    | Drop

  datatype Event = Arrive(id: nat, config: Config) | Act(id: nat, input: Input)

  /** The effect of one step of one call. */
  datatype Move = Move(row: Option<SqlRow>, pc: Pc, granted: bool, invoked: Option<nat>)

  function Stay(row: Option<SqlRow>, pc: Pc): Move {
    Move(row, pc, false, None)
  }

  predicate Ended(pc: Pc) {
    pc.Returned? || pc.Raised? || pc.RuntimeFailure? || pc.Dropped?
  }

  /** What `_send` does with the answer of `reserve`. */
  function AfterReserve(reservation: Reservation): Pc {
    match reservation.action
    case DoCompleted =>
      if reservation.result.None? then Raised(InvalidPeer) else Returned(reservation.result.value)
    case DoWait => Waiting
    case DoReconcile => Reconciling(reservation.fence, FromReserve)
    case DoSend => Granted(reservation)
  }

  function AfterMiss(config: Config, fence: nat, why: Why): Pc {
    match why
    case FromReserve => if config.deduplicates then Missed(fence) else Raised(TelegramUnknown)
    case AfterError(code) => Raised(code)
    case AfterLostComplete => Raised(TelegramUnknown)
  }

  /** What `_send` does with the answer of `allow_resend_after_reconcile_miss`: anything that is
      neither a completed result nor a wait goes on to `_send_reserved`. */
  function AfterAllowResend(reservation: Reservation): Pc {
    if reservation.action == DoCompleted && reservation.result.Some? then Returned(reservation.result.value)
    else if reservation.action == DoWait then Waiting
    else Granted(reservation)
  }

  function Marked(row: Option<SqlRow>, owner: Uuid, fence: nat, code: ErrorCode): Option<SqlRow> {
    if row.Some? && HeldBy(row.value, owner, fence) then Some(UncertainRow(row.value, code)) else row
  }

  predicate CanComplete(row: Option<SqlRow>, owner: Uuid, fence: nat) {
    row.Some? && CompleteWhere(row.value, owner, fence)
  }

  /** A repository transaction of a call at `pc`. */
  function Transact(row: Option<SqlRow>, c: Config, pc: Pc, now: Instant): Move {
    match pc
    case Idle => Stay(row, if c.connected then Reserving(0) else Raised(ConnectionInactive))
    case Waiting => Stay(row, Reserving(0))
    case Reserving(attempt) =>
      if row.None? then Stay(row, Inserting(attempt))
      else
        var (row', r) := ReserveLocked(row.value, c.peerId, now);
        Move(Some(row'), AfterReserve(r), r.action == DoSend, None)
    case Inserting(attempt) =>
      if row.Some? then Stay(row, if attempt + 1 < 2 then Reserving(attempt + 1) else RuntimeFailure)
      else Move(Some(NewRow(c.peerId, c.owner, now + c.lease)),
                Granted(Reservation(DoSend, None, 1)), true, None)
    case SavingReconciled(fence, result, _) =>
      if CanComplete(row, c.owner, fence) then Stay(Some(CompletedRow(row.value, result)), Returned(result))
      else Stay(row, Raised(TelegramUnknown))
    case Missed(_) =>
      if row.None? then Stay(row, RuntimeFailure)
      else
        var (row', r) := AllowResendLocked(row.value, c.owner, now + c.lease);
        Move(Some(row'), AfterAllowResend(r), r.action == DoSend, None)
    case Granted(reservation) => Move(row, InFlight(reservation.fence), false, Some(reservation.fence))
    case MarkingTimeout(fence) => Stay(Marked(row, c.owner, fence, Timeout), MarkingError(fence, TelegramUnknown))
    case MarkingError(fence, code) => Stay(Marked(row, c.owner, fence, code), Reconciling(fence, AfterError(code)))
    case MarkingCancelled(fence) => Stay(Marked(row, c.owner, fence, Timeout), Dropped)
    case SavingSent(fence, result) =>
      if CanComplete(row, c.owner, fence) then Stay(Some(CompletedRow(row.value, result)), Returned(result))
      else Stay(row, Reconciling(fence, AfterLostComplete))
    case _ => Stay(row, pc)
  }

  /** Answers of the network client, and of the event loop, to a call at `pc`. */
  function React(row: Option<SqlRow>, c: Config, pc: Pc, input: Input): Move {
    match pc
    case Reconciling(fence, why) =>
      (match input
       case RemoteId(id) => Stay(row, SavingReconciled(fence, DeliveryResult(id, Reconciled), why))
       case RemoteNone => Stay(row, AfterMiss(c, fence, why))
       case RemoteError(code) => Stay(row, Raised(code))
       case _ => Stay(row, pc))
    case Granted(reservation) =>
      Stay(row, if input.BodyMissing? then MarkingError(reservation.fence, TelegramUnknown) else pc)
    case InFlight(fence) =>
      (match input
       case RemoteId(id) => Stay(row, SavingSent(fence, DeliveryResult(id, Sent)))
       case RemoteError(code) => Stay(row, MarkingError(fence, code))
       case DeadlinePassed => Stay(row, MarkingTimeout(fence))
       case Cancel => Stay(row, MarkingCancelled(fence))
       case RenewDue(now) =>
         if row.Some? && HeldBy(row.value, c.owner, fence)
         then Stay(Some(row.value.(leaseExpiresAt := Some(now + c.lease))), pc)
         else Stay(row, MarkingTimeout(fence))
       case _ => Stay(row, pc))
    case _ => Stay(row, pc)
  }

  /** The repository call that a call at `pc` makes next, if any. */
  function CallAt(key: Key, row: Option<SqlRow>, c: Config, pc: Pc, now: Instant): Option<Call> {
    var cmd := Command(key, c.peerId);
    match pc
    case Reserving(_) => if row.Some? then Some(Call(c.owner, c.lease, Reserve(cmd, now))) else None
    case Inserting(_) => if row.None? then Some(Call(c.owner, c.lease, Reserve(cmd, now))) else None
    case SavingReconciled(fence, result, _) => Some(Call(c.owner, c.lease, Complete(cmd, fence, Some(result))))
    case SavingSent(fence, result) => Some(Call(c.owner, c.lease, Complete(cmd, fence, Some(result))))
    case Missed(_) => Some(Call(c.owner, c.lease, AllowResend(cmd, now)))
    case MarkingTimeout(fence) => Some(Call(c.owner, c.lease, MarkUncertain(cmd, fence, Timeout)))
    case MarkingError(fence, code) => Some(Call(c.owner, c.lease, MarkUncertain(cmd, fence, code)))
    case MarkingCancelled(fence) => Some(Call(c.owner, c.lease, MarkUncertain(cmd, fence, Timeout)))
    case _ => None
  }

  function Advance(row: Option<SqlRow>, c: Config, pc: Pc, input: Input): Move {
    if Ended(pc) then Stay(row, pc)
    else match input
    case Drop => Stay(row, Dropped)
    case Proceed(now) => Transact(row, c, pc, now)
    case _ => React(row, c, pc, input)
  }

  /** The repository call that an input makes; a renewal is the event loop's doing. */
  function NextCall(key: Key, row: Option<SqlRow>, c: Config, pc: Pc, input: Input): Option<Call> {
    match input
    case Proceed(now) => CallAt(key, row, c, pc, now)
    case RenewDue(now) =>
      if pc.InFlight? then Some(Call(c.owner, c.lease, Renew(Command(key, c.peerId), pc.fence, now))) else None
    case _ => None
  }

  /** What the gateway does with the reply to that call. */
  function AfterCall(pc: Pc, reply: Reply): Pc {
    match reply
    case NotFound => RuntimeFailure
    case Reserved(reservation) => if pc.Missed? then AfterAllowResend(reservation) else AfterReserve(reservation)
    case Done(success) =>
      match pc
      case SavingReconciled(_, result, _) => if success then Returned(result) else Raised(TelegramUnknown)
      case SavingSent(fence, result) => if success then Returned(result) else Reconciling(fence, AfterLostComplete)
      case MarkingTimeout(fence) => MarkingError(fence, TelegramUnknown)
      case MarkingError(fence, code) => Reconciling(fence, AfterError(code))
      case MarkingCancelled(_) => Dropped
      case InFlight(fence) => if success then pc else MarkingTimeout(fence)
      case _ => pc
  }

  function TableOf(key: Key, row: Option<SqlRow>): Table {
    if row.Some? then map[key := row.value] else map[]
  }

  /** The step is the repository operation it makes, on a table that holds the row: the row changes as
      the operation changes it, the call goes on by the operation's reply, and it is granted exactly when
      that reply says to send. A step that makes no operation leaves the row alone. */
  predicate IsRepositoryStep(key: Key, row: Option<SqlRow>, c: Config, pc: Pc, input: Input) {
    var m := Advance(row, c, pc, input);
    match NextCall(key, row, c, pc, input)
    case None => m.row == row && !m.granted
    case Some(call) =>
      var (table, reply) := Apply(TableOf(key, row), call);
      && table == TableOf(key, m.row)
      && m.pc == AfterCall(pc, reply)
      && (m.granted <==> reply.Reserved? && reply.reservation.action == DoSend)
  }

  lemma ReservesAreCalls(key: Key, row: Option<SqlRow>, c: Config, pc: Pc, now: Instant)
    requires pc.Reserving? || pc.Inserting? || pc.Missed?
    ensures IsRepositoryStep(key, row, c, pc, Proceed(now))
  {
    if row.Some? {
      assert forall v: SqlRow :: map[key := row.value][key := v] == map[key := v];
    }
  }

  lemma SavesAreCalls(key: Key, row: Option<SqlRow>, c: Config, pc: Pc, now: Instant)
    requires pc.SavingSent? || pc.SavingReconciled?
    ensures IsRepositoryStep(key, row, c, pc, Proceed(now))
  {
    if row.Some? {
      assert forall v: SqlRow :: map[key := row.value][key := v] == map[key := v];
    }
  }

  lemma MarksAreCalls(key: Key, row: Option<SqlRow>, c: Config, pc: Pc, now: Instant)
    requires pc.MarkingTimeout? || pc.MarkingError? || pc.MarkingCancelled?
    ensures IsRepositoryStep(key, row, c, pc, Proceed(now))
  {
    if row.Some? {
      assert forall v: SqlRow :: map[key := row.value][key := v] == map[key := v];
    }
  }

  lemma RenewalsAreCalls(key: Key, row: Option<SqlRow>, c: Config, fence: nat, now: Instant)
    ensures IsRepositoryStep(key, row, c, InFlight(fence), RenewDue(now))
  {
    if row.Some? {
      assert forall v: SqlRow :: map[key := row.value][key := v] == map[key := v];
    }
  }

  lemma ReactionsLeaveRow(row: Option<SqlRow>, c: Config, pc: Pc, input: Input)
    requires !input.Proceed? && !(input.RenewDue? && pc.InFlight?)
    ensures Advance(row, c, pc, input).row == row && !Advance(row, c, pc, input).granted
  {
    if !input.Drop? && !Ended(pc) {
      match pc
      case Reconciling(_, _) =>
      case Granted(_) =>
      case InFlight(_) =>
      case _ =>
    }
  }

  /** So is every step of every call, renewals included. */
  lemma StepsAreRepositoryCalls(key: Key, row: Option<SqlRow>, c: Config, pc: Pc, input: Input)
    ensures IsRepositoryStep(key, row, c, pc, input)
  {
    if input.Proceed? {
      match pc
      case Reserving(_) => ReservesAreCalls(key, row, c, pc, input.now);
      case Inserting(_) => ReservesAreCalls(key, row, c, pc, input.now);
      case Missed(_) => ReservesAreCalls(key, row, c, pc, input.now);
      case SavingSent(_, _) => SavesAreCalls(key, row, c, pc, input.now);
      case SavingReconciled(_, _, _) => SavesAreCalls(key, row, c, pc, input.now);
      case MarkingTimeout(_) => MarksAreCalls(key, row, c, pc, input.now);
      case MarkingError(_, _) => MarksAreCalls(key, row, c, pc, input.now);
      case MarkingCancelled(_) => MarksAreCalls(key, row, c, pc, input.now);
      case _ =>
    } else if input.RenewDue? && pc.InFlight? {
      RenewalsAreCalls(key, row, c, pc.fence, input.now);
    } else {
      ReactionsLeaveRow(row, c, pc, input);
    }
  }

  /** The system after call `id` made the move. */
  function After(s: System, id: nat, m: Move): System
    requires id in s.senders
  {
    System(m.row,
           s.senders[id := s.senders[id].(pc := m.pc)],
           if m.granted then s.grants + [id] else s.grants,
           if m.invoked.Some? then s.sends + [Invocation(id, m.invoked.value)] else s.sends)
  }

  /** An event that does not apply changes nothing, so every event sequence is a run. */
  function Step(s: System, e: Event): System {
    match e
    case Arrive(id, config) =>
      if id in s.senders then s else s.(senders := s.senders[id := Sender(config, Idle)])
    case Act(id, input) =>
      if id !in s.senders then s
      else After(s, id, Advance(s.row, s.senders[id].config, s.senders[id].pc, input))
  }

  function Run(s: System, events: seq<Event>): System
    decreases |events|
  {
    if events == [] then s else Run(Step(s, events[0]), events[1..])
  }

  /** No row, no call. */
  const START := System(None, map[], [], [])
}
