/** Where a call gets to: from every reachable state, what each answer of the repository and of the network leads
    `_send` to do. The safety theorems bound what may happen; these say what does. */
module GatewayProgress {
  import opened Common
  import opened DeliveryModel
  import opened DeliverySql
  import opened GatewaySystem
  import opened GatewaySafety

  function Acts(id: nat, inputs: seq<Input>): seq<Event> {
    seq(|inputs|, k requires 0 <= k < |inputs| => Act(id, inputs[k]))
  }

  /** The inputs that one call receives, one after the other. */
  lemma RunActs(s: System, id: nat, inputs: seq<Input>)
    requires inputs != []
    ensures Run(s, Acts(id, inputs)) == Run(Step(s, Act(id, inputs[0])), Acts(id, inputs[1..]))
  {
    assert Acts(id, inputs)[1..] == Acts(id, inputs[1..]);
  }

  lemma RunTwo(s: System, id: nat, a: Input, b: Input)
    ensures Run(s, Acts(id, [a, b])) == Step(Step(s, Act(id, a)), Act(id, b))
  {
    RunActs(s, id, [a, b]);
    RunActs(Step(s, Act(id, a)), id, [b]);
    assert [a, b][1..] == [b] && Acts(id, [b][1..]) == [];
  }

  lemma RunThree(s: System, id: nat, a: Input, b: Input, c: Input)
    ensures Run(s, Acts(id, [a, b, c])) == Step(Step(Step(s, Act(id, a)), Act(id, b)), Act(id, c))
  {
    RunActs(s, id, [a, b, c]);
    assert [a, b, c][1..] == [b, c];
    RunTwo(Step(s, Act(id, a)), id, b, c);
  }

  lemma RunFour(s: System, id: nat, a: Input, b: Input, c: Input, d: Input)
    ensures Run(s, Acts(id, [a, b, c, d]))
         == Step(Step(Step(Step(s, Act(id, a)), Act(id, b)), Act(id, c)), Act(id, d))
  {
    RunActs(s, id, [a, b, c, d]);
    assert [a, b, c, d][1..] == [b, c, d];
    RunThree(Step(s, Act(id, a)), id, b, c, d);
  }

  /** Call `id` is at `pc`; the row, the grants, the sends and every other call are those of `s`. */
  predicate OnlyMovedTo(s: System, t: System, id: nat, pc: Pc)
    requires id in s.senders
  {
    t == s.(senders := s.senders[id := s.senders[id].(pc := pc)])
  }

  /** The row is pending under this owner, grant and expiry. */
  predicate PendingFor(s: System, owner: Uuid, fence: nat, expiry: Instant) {
    && s.row.Some? && s.row.value.state == Pending && s.row.value.ownerId == Some(owner)
    && s.row.value.fence == fence && s.row.value.leaseExpiresAt == Some(expiry)
  }

  /** The row is completed with this remote id and outcome, and nobody holds it. */
  predicate CompletedWith(s: System, id: string, outcome: DeliveryOutcome) {
    && s.row.Some? && s.row.value.state == Completed
    && s.row.value.externalMessageId == Some(id) && s.row.value.outcome == Some(outcome)
    && s.row.value.errorCode == None && s.row.value.ownerId == None && s.row.value.leaseExpiresAt == None
  }

  /** A grant that nobody has superseded, on a row that is still waiting for it. */
  predicate StillHeld(s: System, fence: nat) {
    s.row.Some? && s.row.value.state == Pending && fence == |s.grants|
  }

  /** The row after the holder of `fence` reported an ambiguous failure. */
  predicate MarkedWith(s: System, t: System, fence: nat, code: ErrorCode) {
    && s.row.Some? && t.row.Some?
    && (if StillHeld(s, fence)
        then && t.row.value.state == Uncertain && t.row.value.errorCode == Some(code)
             && t.row.value.ownerId == None && t.row.value.leaseExpiresAt == None
             && t.row.value.fence == s.row.value.fence && t.row.value.peerId == s.row.value.peerId
        else t.row == s.row)
  }

  /** The newest grant is its holder's, so holding the row is a matter of its state and the fence. */
  lemma HolderHolds(events: seq<Event>, id: nat, fence: nat)
    requires var s := Run(START, events); id in s.senders && Holds(s, id, fence)
    ensures
      var s := Run(START, events);
      && s.row.Some?
      && (HeldBy(s.row.value, s.senders[id].config.owner, fence) <==> StillHeld(s, fence))
  {
    RunKeepsInv(START, events);
  }

  // ---- reserving ----

  lemma InsertAndSend(s: System, id: nat, t: (Instant, Instant, Instant, Instant))
    requires s.row.None? && id in s.senders && s.senders[id].pc == Idle && s.senders[id].config.connected
    ensures
      var c := s.senders[id].config;
      var u := Step(Step(Step(Step(s, Act(id, Proceed(t.0))), Act(id, Proceed(t.1))), Act(id, Proceed(t.2))),
                    Act(id, Proceed(t.3)));
      && u.senders == s.senders[id := Sender(c, InFlight(1))]
      && u.sends == s.sends + [Invocation(id, 1)] && u.grants == s.grants + [id]
      && PendingFor(u, c.owner, 1, t.2 + c.lease) && u.row.value.peerId == c.peerId
  {
    var s1 := Step(s, Act(id, Proceed(t.0)));
    assert OnlyMovedTo(s, s1, id, Reserving(0));
    var s2 := Step(s1, Act(id, Proceed(t.1)));
    assert OnlyMovedTo(s, s2, id, Inserting(0));
  }

  /** The first call for a key inserts the row and sends under fence 1. */
  lemma FirstCallSends(events: seq<Event>, id: nat, t: (Instant, Instant, Instant, Instant))
    requires var s := Run(START, events);
             s.row.None? && id in s.senders && s.senders[id].pc == Idle && s.senders[id].config.connected
    ensures
      var s := Run(START, events);
      var c := s.senders[id].config;
      var u := Run(s, Acts(id, [Proceed(t.0), Proceed(t.1), Proceed(t.2), Proceed(t.3)]));
      && u.senders == s.senders[id := Sender(c, InFlight(1))]
      && u.sends == s.sends + [Invocation(id, 1)] && u.grants == [id]
      && PendingFor(u, c.owner, 1, t.2 + c.lease) && u.row.value.peerId == c.peerId
  {
    var s := Run(START, events);
    assert s.grants == [] by { RunKeepsInv(START, events); }
    hide Run, Step, PendingFor;
    RunFour(s, id, Proceed(t.0), Proceed(t.1), Proceed(t.2), Proceed(t.3));
    InsertAndSend(s, id, t);
  }

  /** A gateway without an active connection does not even reserve. */
  lemma DisconnectedCallRaises(events: seq<Event>, id: nat, now: Instant)
    requires var s := Run(START, events);
             id in s.senders && s.senders[id].pc == Idle && !s.senders[id].config.connected
    ensures
      var s := Run(START, events);
      OnlyMovedTo(s, Run(s, Acts(id, [Proceed(now)])), id, Raised(ConnectionInactive))
  {
    var s := Run(START, events);
    RunActs(s, id, [Proceed(now)]);
    assert Acts(id, [Proceed(now)][1..]) == [];
  }

  /** A call for the row's peer that reads the clock before the lease ends waits and asks again; from the expiry on
      the row is uncertain, unowned, and the call asks the network what became of the message. An uncertain row is
      asked about at any time. */
  lemma WaitsUntilLeaseEnds(events: seq<Event>, id: nat, now: Instant, later: Instant)
    requires var s := Run(START, events);
             && id in s.senders && s.senders[id].pc.Reserving? && s.row.Some?
             && s.row.value.peerId == s.senders[id].config.peerId
    ensures
      var s := Run(START, events);
      var row := s.row.value;
      var t := Run(s, Acts(id, [Proceed(now)]));
      && (row.state == Pending && row.leaseExpiresAt.Some? && now < row.leaseExpiresAt.value ==>
            && OnlyMovedTo(s, t, id, Waiting)
            && OnlyMovedTo(s, Run(s, Acts(id, [Proceed(now), Proceed(later)])), id, Reserving(0)))
      && (row.state == Pending && (row.leaseExpiresAt.None? || row.leaseExpiresAt.value <= now) ==>
            && t == s.(row := Some(row.(state := Uncertain, ownerId := None, leaseExpiresAt := None)),
                       senders := t.senders)
            && t.senders == s.senders[id := s.senders[id].(pc := Reconciling(row.fence, FromReserve))])
      && (row.state == Uncertain ==> OnlyMovedTo(s, t, id, Reconciling(row.fence, FromReserve)))
  {
    var s := Run(START, events);
    RunActs(s, id, [Proceed(now)]);
    assert Acts(id, [Proceed(now)][1..]) == [];
    RunTwo(s, id, Proceed(now), Proceed(later));
  }

  // ---- reconciling ----

  lemma MissAndSend(s: System, id: nat, t0: Instant, t1: Instant)
    requires id in s.senders && s.senders[id].pc.Reconciling? && s.senders[id].pc.why == FromReserve
    requires s.senders[id].config.deduplicates && s.row.Some? && s.row.value.state == Uncertain
    requires s.row.value.fence == |s.grants|
    ensures
      var c := s.senders[id].config;
      var t := Step(Step(Step(s, Act(id, RemoteNone)), Act(id, Proceed(t0))), Act(id, Proceed(t1)));
      && t.senders == s.senders[id := Sender(c, InFlight(|s.grants| + 1))]
      && t.grants == s.grants + [id] && t.sends == s.sends + [Invocation(id, |s.grants| + 1)]
      && PendingFor(t, c.owner, |s.grants| + 1, t0 + c.lease) && t.row.value.peerId == s.row.value.peerId
  {
    var s1 := Step(s, Act(id, RemoteNone));
    assert OnlyMovedTo(s, s1, id, Missed(s.senders[id].pc.fence));
    var s2 := Step(s1, Act(id, Proceed(t0)));
    assert s2.senders[id].pc == Granted(Reservation(DoSend, None, |s.grants| + 1));
  }

  lemma MissAndRaise(s: System, id: nat, t0: Instant, t1: Instant)
    requires id in s.senders && s.senders[id].pc.Reconciling? && s.senders[id].pc.why == FromReserve
    requires !s.senders[id].config.deduplicates
    ensures
      OnlyMovedTo(s, Step(Step(Step(s, Act(id, RemoteNone)), Act(id, Proceed(t0))), Act(id, Proceed(t1))), id,
                  Raised(TelegramUnknown))
  {
    var s1 := Step(s, Act(id, RemoteNone));
    assert OnlyMovedTo(s, s1, id, Raised(TelegramUnknown));
    assert OnlyMovedTo(s, Step(s1, Act(id, Proceed(t0))), id, Raised(TelegramUnknown));
  }

  /** A miss of a reconciliation that began at an uncertain row: a gateway with approved remote deduplication sends
      again, under the next grant, on a row it holds; any other call gives up and leaves everything as it was. */
  lemma MissedMessageIsSentAgain(events: seq<Event>, id: nat, t0: Instant, t1: Instant)
    requires var s := Run(START, events);
             && id in s.senders && s.senders[id].pc.Reconciling? && s.senders[id].pc.why == FromReserve
             && s.row.Some? && s.row.value.state == Uncertain
    ensures
      var s := Run(START, events);
      var c := s.senders[id].config;
      var t := Run(s, Acts(id, [RemoteNone, Proceed(t0), Proceed(t1)]));
      if c.deduplicates then
        && t.senders == s.senders[id := Sender(c, InFlight(|s.grants| + 1))]
        && t.grants == s.grants + [id] && t.sends == s.sends + [Invocation(id, |s.grants| + 1)]
        && PendingFor(t, c.owner, |s.grants| + 1, t0 + c.lease) && t.row.value.peerId == s.row.value.peerId
      else
        OnlyMovedTo(s, t, id, Raised(TelegramUnknown))
  {
    var s := Run(START, events);
    assert s.row.value.fence == |s.grants| by { RunKeepsInv(START, events); }
    hide Run, Step, PendingFor, OnlyMovedTo;
    RunThree(s, id, RemoteNone, Proceed(t0), Proceed(t1));
    if s.senders[id].config.deduplicates {
      MissAndSend(s, id, t0, t1);
    } else {
      MissAndRaise(s, id, t0, t1);
    }
  }

  lemma MissAndReturn(s: System, id: nat, t0: Instant)
    requires id in s.senders && s.senders[id].pc.Reconciling? && s.senders[id].pc.why == FromReserve
    requires s.senders[id].config.deduplicates && s.row.Some? && s.row.value.state == Completed
    requires RowResult(s.row.value).Some?
    ensures OnlyMovedTo(s, Step(Step(s, Act(id, RemoteNone)), Act(id, Proceed(t0))), id,
                        Returned(RowResult(s.row.value).value))
  {
    assert OnlyMovedTo(s, Step(s, Act(id, RemoteNone)), id, Missed(s.senders[id].pc.fence));
  }

  lemma MissAndWait(s: System, id: nat, t0: Instant, t1: Instant)
    requires id in s.senders && s.senders[id].pc.Reconciling? && s.senders[id].pc.why == FromReserve
    requires s.senders[id].config.deduplicates && s.row.Some? && s.row.value.state == Pending
    ensures
      var s2 := Step(Step(s, Act(id, RemoteNone)), Act(id, Proceed(t0)));
      OnlyMovedTo(s, s2, id, Waiting) && OnlyMovedTo(s, Step(s2, Act(id, Proceed(t1))), id, Reserving(0))
  {
    assert OnlyMovedTo(s, Step(s, Act(id, RemoteNone)), id, Missed(s.senders[id].pc.fence));
  }

  /** Whoever asks to resend after somebody else has completed the row returns its result; after somebody else has
      been granted the resend, it waits. */
  lemma LateResendYields(events: seq<Event>, id: nat, t0: Instant, t1: Instant)
    requires var s := Run(START, events);
             && id in s.senders && s.senders[id].pc.Reconciling? && s.senders[id].pc.why == FromReserve
             && s.senders[id].config.deduplicates && s.row.Some? && s.row.value.state != Uncertain
    ensures
      var s := Run(START, events);
      var t := Run(s, Acts(id, [RemoteNone, Proceed(t0)]));
      if s.row.value.state == Completed
      then RowResult(s.row.value).Some? && OnlyMovedTo(s, t, id, Returned(RowResult(s.row.value).value))
      else OnlyMovedTo(s, t, id, Waiting)
           && OnlyMovedTo(s, Run(s, Acts(id, [RemoteNone, Proceed(t0), Proceed(t1)])), id, Reserving(0))
  {
    var s := Run(START, events);
    assert s.row.value.state == Completed ==> RowResult(s.row.value).Some? by { RunKeepsInv(START, events); }
    hide Run, Step, OnlyMovedTo, RowResult;
    RunTwo(s, id, RemoteNone, Proceed(t0));
    RunThree(s, id, RemoteNone, Proceed(t0), Proceed(t1));
    if s.row.value.state == Completed {
      MissAndReturn(s, id, t0);
    } else {
      MissAndWait(s, id, t0, t1);
    }
  }

  /** A miss of the sender's own reconciliation raises the code of its failed send, or `telegram_unknown` when it
      was the completion that failed; a failing reconciliation raises its own code. Nothing else changes. */
  lemma OwnMissRaises(events: seq<Event>, id: nat, code: ErrorCode)
    requires var s := Run(START, events); id in s.senders && s.senders[id].pc.Reconciling?
    ensures
      var s := Run(START, events);
      var why := s.senders[id].pc.why;
      var t := Run(s, Acts(id, [RemoteNone]));
      && (why.AfterError? ==> OnlyMovedTo(s, t, id, Raised(why.code)))
      && (why == AfterLostComplete ==> OnlyMovedTo(s, t, id, Raised(TelegramUnknown)))
      && OnlyMovedTo(s, Run(s, Acts(id, [RemoteError(code)])), id, Raised(code))
  {
    var s := Run(START, events);
    RunActs(s, id, [RemoteNone]);
    RunActs(s, id, [RemoteError(code)]);
    assert Acts(id, [RemoteNone][1..]) == [] == Acts(id, [RemoteError(code)][1..]);
  }

  /** A hit completes an uncertain row as reconciled, whoever found it, and is returned. On a completed row, or on
      one that has been granted to another call meanwhile, the call raises and changes nothing. */
  lemma HitIsReturned(events: seq<Event>, id: nat, external: string, now: Instant)
    requires var s := Run(START, events); id in s.senders && s.senders[id].pc.Reconciling?
    ensures
      var s := Run(START, events);
      var pc := s.senders[id].pc;
      var t := Run(s, Acts(id, [RemoteId(external), Proceed(now)]));
      && s.row.Some?
      && (if s.row.value.state == Uncertain || (pc.why != FromReserve && StillHeld(s, pc.fence)) then
            && t.senders == s.senders[id := s.senders[id].(pc := Returned(DeliveryResult(external, Reconciled)))]
            && CompletedWith(t, external, Reconciled) && t.row.value.fence == s.row.value.fence
            && t.sends == s.sends && t.grants == s.grants
          else
            OnlyMovedTo(s, t, id, Raised(TelegramUnknown)))
  {
    var s := Run(START, events);
    var pc := s.senders[id].pc;
    assert s.row.Some?
        && (CompleteWhere(s.row.value, s.senders[id].config.owner, pc.fence) <==>
            s.row.value.state == Uncertain || (pc.why != FromReserve && StillHeld(s, pc.fence))) by {
      RunKeepsInv(START, events);
      assert PcInv(s, id, pc);
    }
    hide Run;
    assert OnlyMovedTo(s, Step(s, Act(id, RemoteId(external))), id,
                       SavingReconciled(pc.fence, DeliveryResult(external, Reconciled), pc.why));
    RunTwo(s, id, RemoteId(external), Proceed(now));
  }

  // ---- sending ----

  lemma SenderHolds(events: seq<Event>, id: nat)
    requires var s := Run(START, events); id in s.senders && (s.senders[id].pc.InFlight? || s.senders[id].pc.Granted?)
    ensures
      var s := Run(START, events);
      var pc := s.senders[id].pc;
      Holds(s, id, if pc.InFlight? then pc.fence else pc.reservation.fence)
  {
    RunKeepsInv(START, events);
    var s := Run(START, events);
    assert PcInv(s, id, s.senders[id].pc);
  }

  /** The remote id of a send completes the row as sent and is returned, if the row still waits for this grant or is
      uncertain; otherwise the call asks the network itself, and a miss then raises `telegram_unknown`. */
  lemma SentMessageIsReturned(events: seq<Event>, id: nat, external: string, now: Instant)
    requires var s := Run(START, events); id in s.senders && s.senders[id].pc.InFlight?
    ensures
      var s := Run(START, events);
      var fence := s.senders[id].pc.fence;
      var t := Run(s, Acts(id, [RemoteId(external), Proceed(now)]));
      && s.row.Some?
      && (if s.row.value.state == Uncertain || StillHeld(s, fence) then
            && t.senders == s.senders[id := s.senders[id].(pc := Returned(DeliveryResult(external, Sent)))]
            && CompletedWith(t, external, Sent) && t.row.value.fence == s.row.value.fence
            && t.sends == s.sends && t.grants == s.grants
          else
            && OnlyMovedTo(s, t, id, Reconciling(fence, AfterLostComplete))
            && OnlyMovedTo(s, Run(s, Acts(id, [RemoteId(external), Proceed(now), RemoteNone])), id,
                           Raised(TelegramUnknown)))
  {
    var s := Run(START, events);
    SenderHolds(events, id);
    HolderHolds(events, id, s.senders[id].pc.fence);
    hide Run;
    RunTwo(s, id, RemoteId(external), Proceed(now));
    RunThree(s, id, RemoteId(external), Proceed(now), RemoteNone);
  }

  /** From the marking of an error on: the row is marked, and a miss raises the code. */
  lemma ErrorMarksAndRaises(s: System, id: nat, fence: nat, code: ErrorCode, now: Instant)
    requires id in s.senders && s.senders[id].pc == MarkingError(fence, code)
    requires s.row.Some? && (HeldBy(s.row.value, s.senders[id].config.owner, fence) <==> StillHeld(s, fence))
    ensures
      var t := Step(Step(s, Act(id, Proceed(now))), Act(id, RemoteNone));
      && MarkedWith(s, t, fence, code) && t.sends == s.sends && t.grants == s.grants
      && t.senders == s.senders[id := s.senders[id].(pc := Raised(code))]
  {
    var s1 := Step(s, Act(id, Proceed(now)));
    assert MarkedWith(s, s1, fence, code);
  }

  /** A send that fails with a code marks the row it holds uncertain with that code; if the message is not found
      either, the call raises the code. */
  lemma FailedSendRaises(events: seq<Event>, id: nat, code: ErrorCode, now: Instant)
    requires var s := Run(START, events); id in s.senders && s.senders[id].pc.InFlight?
    ensures
      var s := Run(START, events);
      var fence := s.senders[id].pc.fence;
      var t := Run(s, Acts(id, [RemoteError(code), Proceed(now), RemoteNone]));
      && MarkedWith(s, t, fence, code) && t.sends == s.sends && t.grants == s.grants
      && t.senders == s.senders[id := s.senders[id].(pc := Raised(code))]
  {
    var s := Run(START, events);
    SenderHolds(events, id);
    HolderHolds(events, id, s.senders[id].pc.fence);
    hide Run;
    var s1 := Step(s, Act(id, RemoteError(code)));
    assert OnlyMovedTo(s, s1, id, MarkingError(s.senders[id].pc.fence, code));
    hide Step;
    RunThree(s, id, RemoteError(code), Proceed(now), RemoteNone);
    ErrorMarksAndRaises(s1, id, s.senders[id].pc.fence, code, now);
  }

  lemma TimeoutMarks(s: System, id: nat, fence: nat, stop: Input, now: Instant)
    requires id in s.senders && s.senders[id].pc == InFlight(fence)
    requires s.row.Some? && (HeldBy(s.row.value, s.senders[id].config.owner, fence) <==> StillHeld(s, fence))
    requires stop.DeadlinePassed? || (stop.RenewDue? && !StillHeld(s, fence))
    ensures
      var t := Step(Step(s, Act(id, stop)), Act(id, Proceed(now)));
      && MarkedWith(s, t, fence, Timeout) && t.sends == s.sends && t.grants == s.grants
      && t.senders == s.senders[id := s.senders[id].(pc := MarkingError(fence, TelegramUnknown))]
      && !HeldBy(t.row.value, s.senders[id].config.owner, fence)
  {
    assert OnlyMovedTo(s, Step(s, Act(id, stop)), id, MarkingTimeout(fence));
  }

  /** At its deadline, and when a renewal is refused, a call marks the row it holds uncertain with `timeout` and, if
      the message is not found, raises `telegram_unknown`. */
  lemma TimedOutSendRaises(events: seq<Event>, id: nat, stop: Input, t0: Instant, t1: Instant)
    requires var s := Run(START, events);
             && id in s.senders && s.senders[id].pc.InFlight?
             && (stop.DeadlinePassed? || (stop.RenewDue? && !StillHeld(s, s.senders[id].pc.fence)))
    ensures
      var s := Run(START, events);
      var fence := s.senders[id].pc.fence;
      var t := Run(s, Acts(id, [stop, Proceed(t0), Proceed(t1), RemoteNone]));
      && MarkedWith(s, t, fence, Timeout) && t.sends == s.sends && t.grants == s.grants
      && t.senders == s.senders[id := s.senders[id].(pc := Raised(TelegramUnknown))]
  {
    var s := Run(START, events);
    SenderHolds(events, id);
    var fence := s.senders[id].pc.fence;
    HolderHolds(events, id, fence);
    hide Run, Step;
    RunFour(s, id, stop, Proceed(t0), Proceed(t1), RemoteNone);
    TimeoutMarks(s, id, fence, stop, t0);
    var s2 := Step(Step(s, Act(id, stop)), Act(id, Proceed(t0)));
    ErrorMarksAndRaises(s2, id, fence, TelegramUnknown, t1);
  }

  /** A renewal of a held row moves its expiry on and nothing else, and the call goes on sending. */
  lemma RenewalMovesExpiry(events: seq<Event>, id: nat, now: Instant)
    requires var s := Run(START, events);
             id in s.senders && s.senders[id].pc.InFlight? && StillHeld(s, s.senders[id].pc.fence)
    ensures
      var s := Run(START, events);
      Run(s, Acts(id, [RenewDue(now)]))
      == s.(row := Some(s.row.value.(leaseExpiresAt := Some(now + s.senders[id].config.lease))))
  {
    var s := Run(START, events);
    var pc := s.senders[id].pc;
    SenderHolds(events, id);
    HolderHolds(events, id, pc.fence);
    RunActs(s, id, [RenewDue(now)]);
    assert Acts(id, [RenewDue(now)][1..]) == [];
    assert s.senders[id := s.senders[id].(pc := pc)] == s.senders;
  }

  /** A cancelled call marks the row it holds before it ends. */
  lemma CancelledSendMarks(events: seq<Event>, id: nat, now: Instant)
    requires var s := Run(START, events); id in s.senders && s.senders[id].pc.InFlight?
    ensures
      var s := Run(START, events);
      var t := Run(s, Acts(id, [Cancel, Proceed(now)]));
      && MarkedWith(s, t, s.senders[id].pc.fence, Timeout) && t.sends == s.sends && t.grants == s.grants
      && t.senders == s.senders[id := s.senders[id].(pc := Dropped)]
  {
    var s := Run(START, events);
    SenderHolds(events, id);
    HolderHolds(events, id, s.senders[id].pc.fence);
    RunTwo(s, id, Cancel, Proceed(now));
  }

  /** A granted call whose body is gone sends nothing, marks the row and raises `telegram_unknown` on a miss. */
  lemma MissingBodySendsNothing(events: seq<Event>, id: nat, now: Instant)
    requires var s := Run(START, events); id in s.senders && s.senders[id].pc.Granted?
    ensures
      var s := Run(START, events);
      var t := Run(s, Acts(id, [BodyMissing, Proceed(now), RemoteNone]));
      && MarkedWith(s, t, s.senders[id].pc.reservation.fence, TelegramUnknown)
      && t.sends == s.sends && t.grants == s.grants
      && t.senders == s.senders[id := s.senders[id].(pc := Raised(TelegramUnknown))]
  {
    var s := Run(START, events);
    SenderHolds(events, id);
    var fence := s.senders[id].pc.reservation.fence;
    HolderHolds(events, id, fence);
    hide Run;
    var s1 := Step(s, Act(id, BodyMissing));
    assert OnlyMovedTo(s, s1, id, MarkingError(fence, TelegramUnknown));
    hide Step;
    RunThree(s, id, BodyMissing, Proceed(now), RemoteNone);
    ErrorMarksAndRaises(s1, id, fence, TelegramUnknown, now);
  }
}
