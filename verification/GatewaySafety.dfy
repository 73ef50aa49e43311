/** What every run of the gateway system keeps. */
module GatewaySafety {
  import opened Common
  import opened DeliveryModel
  import opened DeliverySql
  import opened GatewaySystem

  /** The call holds the grant that carries `fence`. */
  predicate Holds(s: System, id: nat, fence: nat) {
    1 <= fence <= |s.grants| && s.grants[fence - 1] == id
  }

  ghost predicate Unsent(s: System, fence: nat) {
    forall k :: 0 <= k < |s.sends| ==> s.sends[k].fence != fence
  }

  /** A reconciliation is the holder's own, or began at an uncertain row, which stays unheld until the
      next grant. */
  predicate ReconcileInv(s: System, id: nat, fence: nat, why: Why) {
    && s.row.Some? && fence <= |s.grants|
    && (if why.FromReserve? then fence == |s.grants| ==> s.row.value.state != Pending else Holds(s, id, fence))
  }

  /** What a call's position says about the row and the history. */
  ghost predicate PcInv(s: System, id: nat, pc: Pc) {
    match pc
    case Idle => true
    case Reserving(attempt) => attempt <= 1 && (attempt == 1 ==> s.row.Some?)
    case Inserting(attempt) => attempt == 0
    case Waiting => s.row.Some?
    case Reconciling(fence, why) => ReconcileInv(s, id, fence, why)
    case SavingReconciled(fence, _, why) => ReconcileInv(s, id, fence, why)
    case Missed(fence) => s.row.Some? && fence <= |s.grants| && id in s.senders && s.senders[id].config.deduplicates
    case Granted(r) => r.action == DoSend && Holds(s, id, r.fence) && Unsent(s, r.fence)
    case InFlight(fence) => Holds(s, id, fence)
    case MarkingTimeout(fence) => Holds(s, id, fence)
    case MarkingError(fence, _) => Holds(s, id, fence)
    case MarkingCancelled(fence) => Holds(s, id, fence)
    case SavingSent(fence, _) => Holds(s, id, fence)
    case Returned(result) => s.row.Some? && s.row.value.state == Completed && RowResult(s.row.value) == Some(result)
    case Raised(_) => true
    case RuntimeFailure => false
    case Dropped => true
  }

  /** The row counts the grants; a completed row has a result; a pending row belongs to the newest grant. */
  ghost predicate RowInv(s: System) {
    match s.row
    case None => s.grants == []
    case Some(row) =>
      && row.fence == |s.grants|
      && |s.grants| >= 1
      && (row.state == Completed ==> RowResult(row).Some?)
      && (row.state == Pending ==>
            s.grants[|s.grants| - 1] in s.senders
            && row.ownerId == Some(s.senders[s.grants[|s.grants| - 1]].config.owner))
  }

  /** Every grant after the first went to a call whose gateway deduplicates remotely. */
  ghost predicate GrantInv(s: System) {
    && (forall k :: 0 <= k < |s.grants| ==> s.grants[k] in s.senders)
    && (forall k :: 1 <= k < |s.grants| ==> s.senders[s.grants[k]].config.deduplicates)
  }

  /** Every network send was made under a grant, and no grant was used twice. */
  ghost predicate SendInv(s: System) {
    && (forall k :: 0 <= k < |s.sends| ==> Holds(s, s.sends[k].sender, s.sends[k].fence))
    && (forall j, k :: 0 <= j < k < |s.sends| ==> s.sends[j].fence != s.sends[k].fence)
  }

  ghost predicate Inv(s: System) {
    && RowInv(s)
    && GrantInv(s)
    && SendInv(s)
    && (forall id <- s.senders :: PcInv(s, id, s.senders[id].pc))
  }

  /** How a move may change the row: completed rows are absorbing, fences count grants. */
  ghost predicate RowMove(s: System, id: nat, m: Move)
    requires id in s.senders
  {
    if m.granted then
      && m.pc == Granted(Reservation(DoSend, None, |s.grants| + 1))
      && m.row.Some? && m.row.value.fence == |s.grants| + 1 && m.row.value.state == Pending
      && m.row.value.ownerId == Some(s.senders[id].config.owner)
      && (s.row.Some? ==> s.row.value.state != Completed && s.senders[id].config.deduplicates)
    else
      && m.row.Some? == s.row.Some?
      && (m.row.Some? ==>
            && m.row.value.fence == s.row.value.fence
            && m.row.value.peerId == s.row.value.peerId
            && (s.row.value.state == Completed ==> m.row == s.row)
            && (m.row.value.state == Pending ==>
                  s.row.value.state == Pending && m.row.value.ownerId == s.row.value.ownerId)
            && (m.row.value.state == Completed ==> RowResult(m.row.value).Some?))
  }

  /** A position that is good once the move's row and history are in place. */
  ghost predicate PcMove(s: System, id: nat, m: Move)
    requires id in s.senders
  {
    && (m.invoked.Some? ==>
          s.senders[id].pc.Granted? && m.invoked.value == s.senders[id].pc.reservation.fence &&
              m.pc == InFlight(m.invoked.value))
    && (m.invoked.None? && !m.granted ==> PcInv(s.(row := m.row), id, m.pc))
    && (m.pc.Granted? ==> m.granted || m.pc == s.senders[id].pc)
  }

  /** The mover's own position and the row are consistent. */
  ghost predicate Local(s: System, id: nat) {
    id in s.senders && RowInv(s) && PcInv(s, id, s.senders[id].pc)
  }

  ghost predicate TransactOk(s: System, id: nat, now: Instant)
    requires id in s.senders
  {
    var m := Transact(s.row, s.senders[id].config, s.senders[id].pc, now);
    RowMove(s, id, m) && PcMove(s, id, m)
  }

  lemma ReserveMoves(s: System, id: nat, now: Instant)
    requires Local(s, id) && s.senders[id].pc.Reserving?
    ensures TransactOk(s, id, now)
  {
  }

  lemma GrantMoves(s: System, id: nat, now: Instant)
    requires Local(s, id) && (s.senders[id].pc.Inserting? || s.senders[id].pc.Missed?)
    ensures TransactOk(s, id, now)
  {
  }

  lemma SaveMoves(s: System, id: nat, now: Instant)
    requires Local(s, id) && (s.senders[id].pc.SavingSent? || s.senders[id].pc.SavingReconciled?)
    ensures TransactOk(s, id, now)
  {
  }

  lemma MarkMoves(s: System, id: nat, now: Instant)
    requires Local(s, id)
    requires var pc := s.senders[id].pc; pc.MarkingTimeout? || pc.MarkingError? || pc.MarkingCancelled?
    ensures TransactOk(s, id, now)
  {
  }

  lemma OtherMoves(s: System, id: nat, now: Instant)
    requires Local(s, id)
    requires var pc := s.senders[id].pc;
             pc.Idle? || pc.Waiting? || pc.Granted? || pc.Reconciling? || pc.InFlight? || Ended(pc)
    ensures TransactOk(s, id, now)
  {
  }

  lemma TransactMoves(s: System, id: nat, now: Instant)
    requires id in s.senders && Local(s, id)
    ensures TransactOk(s, id, now)
  {
    hide Local, TransactOk;
    match s.senders[id].pc
    case Reserving(_) => ReserveMoves(s, id, now);
    case Inserting(_) => GrantMoves(s, id, now);
    case Missed(_) => GrantMoves(s, id, now);
    case SavingSent(_, _) => SaveMoves(s, id, now);
    case SavingReconciled(_, _, _) => SaveMoves(s, id, now);
    case MarkingTimeout(_) => MarkMoves(s, id, now);
    case MarkingError(_, _) => MarkMoves(s, id, now);
    case MarkingCancelled(_) => MarkMoves(s, id, now);
    case _ => OtherMoves(s, id, now);
  }

  ghost predicate ReactOk(s: System, id: nat, input: Input)
    requires id in s.senders
  {
    var m := React(s.row, s.senders[id].config, s.senders[id].pc, input);
    RowMove(s, id, m) && PcMove(s, id, m)
  }

  lemma ReconcileReacts(s: System, id: nat, input: Input)
    requires Local(s, id) && s.senders[id].pc.Reconciling?
    ensures ReactOk(s, id, input)
  {
  }

  lemma FlightReacts(s: System, id: nat, input: Input)
    requires Local(s, id) && s.senders[id].pc.InFlight?
    ensures ReactOk(s, id, input)
  {
  }

  lemma ReactMoves(s: System, id: nat, input: Input)
    requires Local(s, id)
    ensures ReactOk(s, id, input)
  {
    if s.senders[id].pc.Reconciling? {
      ReconcileReacts(s, id, input);
    } else if s.senders[id].pc.InFlight? {
      FlightReacts(s, id, input);
    }
  }

  lemma AdvanceMoves(s: System, id: nat, input: Input)
    requires Inv(s) && id in s.senders
    ensures var m := Advance(s.row, s.senders[id].config, s.senders[id].pc, input);
            RowMove(s, id, m) && PcMove(s, id, m)
  {
    assert Local(s, id);
    if input.Proceed? {
      TransactMoves(s, id, input.now);
    } else {
      ReactMoves(s, id, input);
    }
  }

  lemma RowKept(s: System, id: nat, m: Move)
    requires Inv(s) && id in s.senders && RowMove(s, id, m)
    ensures RowInv(After(s, id, m)) && GrantInv(After(s, id, m))
  {
    var t := After(s, id, m);
    forall k | 0 <= k < |t.grants|
      ensures t.grants[k] in t.senders && (k >= 1 ==> t.senders[t.grants[k]].config.deduplicates)
    {
      assert k < |s.grants| ==> t.grants[k] == s.grants[k];
    }
  }

  /** A move that sends uses the mover's own, so far unused, grant. */
  lemma SendsKept(s: System, id: nat, m: Move)
    requires Inv(s) && id in s.senders && RowMove(s, id, m) && PcMove(s, id, m)
    ensures SendInv(After(s, id, m))
  {
    var t := After(s, id, m);
    assert PcInv(s, id, s.senders[id].pc);
    forall k | 0 <= k < |t.sends|
      ensures Holds(t, t.sends[k].sender, t.sends[k].fence)
    {
      assert k < |s.sends| ==> t.sends[k] == s.sends[k] && Holds(s, s.sends[k].sender, s.sends[k].fence);
    }
  }

  /** How the row and the grants of t may go beyond those of s. */
  predicate Beyond(s: System, t: System) {
    && s.grants <= t.grants
    && (s.row.Some? ==> t.row.Some?)
    && (s.row.Some? && s.row.value.state == Completed ==> t.row == s.row)
    && (s.row.Some? && t.row.value.state == Pending && s.grants == t.grants ==> s.row.value.state == Pending)
    && (forall id <- s.senders :: id in t.senders && t.senders[id].config == s.senders[id].config)
  }

  lemma MoveGoesBeyond(s: System, id: nat, m: Move)
    requires id in s.senders && RowMove(s, id, m)
    ensures Beyond(s, After(s, id, m))
  {
  }

  /** A call's position stays good as long as nobody sends under its grant. */
  lemma PositionKept(s: System, t: System, id: nat, pc: Pc)
    requires Beyond(s, t) && PcInv(s, id, pc) && (pc.Granted? ==> Unsent(t, pc.reservation.fence))
    ensures PcInv(t, id, pc)
  {
    assert forall fence :: Holds(s, id, fence) ==> Holds(t, id, fence);
  }

  lemma OthersKept(s: System, id: nat, m: Move, other: nat)
    requires Inv(s) && id in s.senders && RowMove(s, id, m) && PcMove(s, id, m)
    requires other in s.senders && other != id
    ensures PcInv(After(s, id, m), other, s.senders[other].pc)
  {
    var t := After(s, id, m);
    var pc := s.senders[other].pc;
    assert PcInv(s, id, s.senders[id].pc) && PcInv(s, other, pc);
    MoveGoesBeyond(s, id, m);
    if pc.Granted? {
      OnlyMoverSends(s, id, m, other);
    }
    hide Inv, RowMove, PcMove, PcInv;
    PositionKept(s, t, other, pc);
  }

  /** The mover sends under its own grant, which is not another call's. */
  lemma OnlyMoverSends(s: System, id: nat, m: Move, other: nat)
    requires id in s.senders && other in s.senders && other != id && PcMove(s, id, m)
    requires PcInv(s, id, s.senders[id].pc) && PcInv(s, other, s.senders[other].pc) && s.senders[other].pc.Granted?
    ensures Unsent(After(s, id, m), s.senders[other].pc.reservation.fence)
  {
  }

  lemma MoverKept(s: System, id: nat, m: Move)
    requires Inv(s) && id in s.senders && RowMove(s, id, m) && PcMove(s, id, m)
    ensures PcInv(After(s, id, m), id, m.pc)
  {
    assert PcInv(s, id, s.senders[id].pc);
  }

  lemma StepKeepsInv(s: System, e: Event)
    requires Inv(s)
    ensures Inv(Step(s, e))
  {
    var t := Step(s, e);
    match e
    case Arrive(id, config) =>
      forall i | i in t.senders
        ensures PcInv(t, i, t.senders[i].pc)
      {
        assert i in s.senders ==> PcInv(s, i, s.senders[i].pc);
      }
    case Act(id, input) =>
      if id in s.senders {
        AdvanceMoves(s, id, input);
        var m := Advance(s.row, s.senders[id].config, s.senders[id].pc, input);
        RowKept(s, id, m);
        SendsKept(s, id, m);
        MoverKept(s, id, m);
        forall i | i in t.senders && i != id
          ensures PcInv(t, i, t.senders[i].pc)
        {
          OthersKept(s, id, m, i);
        }
      }
  }

  lemma {:induction false} RunKeepsInv(s: System, events: seq<Event>)
    requires Inv(s)
    ensures Inv(Run(s, events))
    decreases |events|
  {
    if events != [] {
      StepKeepsInv(s, events[0]);
      RunKeepsInv(Step(s, events[0]), events[1..]);
    }
  }

  /** A completed row never changes again, whatever anyone does. */
  lemma {:induction false} CompletedIsFinal(s: System, events: seq<Event>)
    requires Inv(s) && s.row.Some? && s.row.value.state == Completed
    ensures Run(s, events).row == s.row
    decreases |events|
  {
    if events != [] {
      StepKeepsInv(s, events[0]);
      if events[0].Act? && events[0].id in s.senders {
        AdvanceMoves(s, events[0].id, events[0].input);
      }
      CompletedIsFinal(Step(s, events[0]), events[1..]);
    }
  }

  /** A call that has returned keeps its result. */
  lemma {:induction false} ReturnedStays(s: System, events: seq<Event>, id: nat)
    requires id in s.senders && s.senders[id].pc.Returned?
    ensures id in Run(s, events).senders && Run(s, events).senders[id].pc == s.senders[id].pc
    decreases |events|
  {
    if events != [] {
      ReturnedStays(Step(s, events[0]), events[1..], id);
    }
  }

  /** Agreement: two calls that return, at any two moments of a run, return the same result, and
      it is the one stored in the row. */
  lemma Agreement(events: seq<Event>, later: seq<Event>, a: nat, b: nat)
    requires var s := Run(START, events); a in s.senders && s.senders[a].pc.Returned?
    requires var t := Run(Run(START, events), later); b in t.senders && t.senders[b].pc.Returned?
    ensures
      var s := Run(START, events);
      var t := Run(s, later);
      && s.senders[a].pc.result == t.senders[b].pc.result
      && t.row == s.row && s.row.Some? && RowResult(s.row.value) == Some(s.senders[a].pc.result)
  {
    var s := Run(START, events);
    var t := Run(s, later);
    RunKeepsInv(START, events);
    RunKeepsInv(s, later);
    assert PcInv(s, a, s.senders[a].pc);
    assert PcInv(t, b, t.senders[b].pc);
    CompletedIsFinal(s, later);
  }

  /** Distinct numbers from 1..n are at most n many. */
  lemma {:induction false} DistinctBounded(fences: seq<nat>, n: nat)
    requires forall k :: 0 <= k < |fences| ==> 1 <= fences[k] <= n
    requires forall j, k :: 0 <= j < k < |fences| ==> fences[j] != fences[k]
    ensures |fences| <= n
    decreases n
  {
    if n > 0 && n in fences {
      var i :| 0 <= i < |fences| && fences[i] == n;
      var rest := fences[..i] + fences[i + 1..];
      DistinctBounded(rest, n - 1);
    } else if n > 0 {
      DistinctBounded(fences, n - 1);
    } else {
      FirstInRange(fences, n);
    }
  }

  lemma FirstInRange(fences: seq<nat>, n: nat)
    requires forall k :: 0 <= k < |fences| ==> 1 <= fences[k] <= n
    ensures |fences| > 0 ==> 1 <= fences[0] <= n
  {
  }

  /** The fence of the row counts the grants; each grant is used for at most one network send; and
      every grant after the first needed a gateway with approved remote deduplication. */
  lemma FencesCountGrants(events: seq<Event>)
    ensures
      var s := Run(START, events);
      && (s.row.Some? ==> s.row.value.fence == |s.grants| >= 1)
      && |s.sends| <= |s.grants|
      && (forall j, k :: 0 <= j < k < |s.sends| ==> s.sends[j].fence != s.sends[k].fence)
      && (forall k :: 0 <= k < |s.sends| ==> Holds(s, s.sends[k].sender, s.sends[k].fence))
      && (forall k :: 1 <= k < |s.grants| ==> s.grants[k] in s.senders && s.senders[s.grants[k]].config.deduplicates)
  {
    RunKeepsInv(START, events);
    var s := Run(START, events);
    var fences := seq(|s.sends|, k requires 0 <= k < |s.sends| => s.sends[k].fence);
    forall k | 0 <= k < |fences|
      ensures 1 <= fences[k] <= |s.grants|
    {
      assert Holds(s, s.sends[k].sender, s.sends[k].fence);
    }
    DistinctBounded(fences, |s.grants|);
  }

  lemma SecondGrantDeduplicates(events: seq<Event>)
    ensures
      var s := Run(START, events);
      |s.grants| >= 2 ==> s.grants[1] in s.senders && s.senders[s.grants[1]].config.deduplicates
  {
    RunKeepsInv(START, events);
  }

  /** Without approved deduplication the message is put on the network at most once, over all
      interleavings, expired leases, crashes and restarts. */
  lemma AtMostOneSend(events: seq<Event>)
    requires var s := Run(START, events); forall id <- s.senders :: !s.senders[id].config.deduplicates
    ensures |Run(START, events).sends| <= 1
    ensures Run(START, events).row.Some? ==> |Run(START, events).grants| == 1
  {
    FencesCountGrants(events);
    SecondGrantDeduplicates(events);
  }

  /** No call ever fails because it lost the race to insert the row, or because the row it
      reconciled is gone; and `_send_reserved` is entered only with a send grant. */
  lemma NoUnexpectedState(events: seq<Event>, id: nat)
    requires id in Run(START, events).senders
    ensures
      var pc := Run(START, events).senders[id].pc;
      && !pc.RuntimeFailure?
      && (pc.Granted? ==> pc.reservation.action == DoSend)
  {
    RunKeepsInv(START, events);
    var s := Run(START, events);
    assert PcInv(s, id, s.senders[id].pc);
  }

  /** A completed row always holds a result, and a call only gets `invalid_peer` from `reserve`
      when its peer is not the row's. */
  lemma CompletedHasResult(events: seq<Event>, id: nat, now: Instant)
    requires var s := Run(START, events); id in s.senders && s.senders[id].pc.Reserving? && s.row.Some?
    ensures
      var s := Run(START, events);
      && (s.row.value.state == Completed ==> RowResult(s.row.value).Some?)
      && ((Step(s, Act(id, Proceed(now))).senders[id].pc == Raised(InvalidPeer))
          <==> (s.senders[id].config.peerId != s.row.value.peerId))
  {
    RunKeepsInv(START, events);
  }

  /** Fencing: a call that completes a row still pending is the holder of the newest grant; with any
      older grant, or after a reconciliation that `reserve` asked for, it succeeds exactly when the row
      is uncertain. */
  lemma StaleFenceNeedsUncertain(events: seq<Event>, id: nat, now: Instant)
    requires var s := Run(START, events);
             id in s.senders && (s.senders[id].pc.SavingSent? || s.senders[id].pc.SavingReconciled?)
    ensures
      var s := Run(START, events);
      var pc := s.senders[id].pc;
      && s.row.Some?
      && (Step(s, Act(id, Proceed(now))).senders[id].pc.Returned? <==>
          (|| s.row.value.state == Uncertain
           || (s.row.value.state == Pending && pc.fence == |s.grants| &&
               !(pc.SavingReconciled? && pc.why.FromReserve?))))
  {
    RunKeepsInv(START, events);
    var s := Run(START, events);
    assert PcInv(s, id, s.senders[id].pc);
  }

  // ---- first reservations ----

  /** The step is an insert that succeeds. */
  predicate InsertsRow(s: System, e: Event) {
    && e.Act? && e.id in s.senders && s.senders[e.id].pc.Inserting?
    && Step(s, e).senders[e.id].pc.Granted?
  }

  /** How many calls of the run were granted the send by inserting the row. */
  function Inserts(s: System, events: seq<Event>): nat
    decreases |events|
  {
    if events == [] then 0 else (if InsertsRow(s, events[0]) then 1 else 0) + Inserts(Step(s, events[0]), events[1..])
  }

  /** A step appends at most one grant, for the call that made it; it carries fence 1 exactly when it
      comes from an insert. */
  lemma FirstGrantIsInsert(s: System, e: Event)
    requires Inv(s)
    ensures
      var t := Step(s, e);
      && (InsertsRow(s, e) ==> s.grants == [] && t.grants == [e.id] && t.row.Some? && t.row.value.fence == 1)
      && (!InsertsRow(s, e) && t.grants != s.grants ==>
            s.grants != [] && t.grants == s.grants + [e.id] && t.row.value.fence >= 2)
      && (InsertsRow(s, e) <==> s.row.None? && t.row.Some?)
      && (s.row.Some? ==> t.row.Some?)
  {
    if e.Act? && e.id in s.senders {
      AdvanceMoves(s, e.id, e.input);
    }
  }

  lemma {:induction false} InsertsAreRows(s: System, events: seq<Event>)
    requires Inv(s)
    ensures Inserts(s, events) == if s.row.None? && Run(s, events).row.Some? then 1 else 0
    ensures s.row.Some? ==> Run(s, events).row.Some?
    decreases |events|
  {
    if events != [] {
      FirstGrantIsInsert(s, events[0]);
      StepKeepsInv(s, events[0]);
      InsertsAreRows(Step(s, events[0]), events[1..]);
    }
  }

  /** However many calls reserve at once, with or without deduplication, exactly one is granted the
      send by inserting the row. */
  lemma OneInsertIsGranted(events: seq<Event>)
    ensures Inserts(START, events) == if Run(START, events).row.Some? then 1 else 0
  {
    InsertsAreRows(START, events);
  }

  /** Idempotence: once the row is completed, a new call for the same peer returns the stored
      result in two steps, sends nothing and changes nothing. */
  lemma LaterCallReplays(events: seq<Event>, id: nat, config: Config, t0: Instant, t1: Instant)
    requires var s := Run(START, events);
             id !in s.senders && s.row.Some? && s.row.value.state == Completed
             && config.connected && config.peerId == s.row.value.peerId
    ensures
      var s := Run(START, events);
      var t := Run(s, [Arrive(id, config), Act(id, Proceed(t0)), Act(id, Proceed(t1))]);
      && id in t.senders && t.senders[id].pc.Returned? && RowResult(s.row.value) == Some(t.senders[id].pc.result)
      && t.row == s.row && t.sends == s.sends && t.grants == s.grants
  {
    RunKeepsInv(START, events);
    var s := Run(START, events);
    var s1 := Step(s, Arrive(id, config));
    var s2 := Step(s1, Act(id, Proceed(t0)));
    var s3 := Step(s2, Act(id, Proceed(t1)));
    var e := [Arrive(id, config), Act(id, Proceed(t0)), Act(id, Proceed(t1))];
    assert e[1..] == [Act(id, Proceed(t0)), Act(id, Proceed(t1))];
    assert e[1..][1..] == [Act(id, Proceed(t1))];
    assert e[1..][1..][1..] == [];
    assert Run(s, e) == Run(s1, e[1..]) == Run(s2, e[1..][1..]) == Run(s3, e[1..][1..][1..]) == s3;
  }
}
