/** What every orderly run of the connection system keeps. */
module ConnectionSafety {
  import opened Common
  import opened ConnectionModel
  import opened ConnectionSystem

  /** Terminal rows are unleased, active rows are leased, and an owner comes with an expiry. */
  predicate Shape(r: ConnectionRecord) {
    && (Terminal(r.health.state) ==> r.leaseOwner.None?)
    && (r.health.state == Active ==> r.leaseOwner.Some?)
    && (r.leaseOwner.Some? <==> r.leaseExpiresAt.Some?)
  }

  /** A row that was never claimed nor forced. */
  predicate Fresh(r: ConnectionRecord) {
    r.leaseOwner.None? && r.fence == 0 && r.retryCount == 0 && r.health.state == Quarantine
  }

  ghost predicate RowInv(s: System) {
    match s.row
    case None => s.failures == 0 && s.resumes == 0
    case Some(r) =>
      && Shape(r)
      && r.fence <= r.version
      && (r.version == 0 ==> Fresh(r) && s.resumes == 0)
  }

  /** The retry counter is the number of persisted failures, and it is bounded. */
  ghost predicate RetryInv(s: System) {
    match s.row
    case None => true
    case Some(r) =>
      && r.retryCount == s.failures <= s.maxRetries + s.resumes
      && (!Terminal(r.health.state) ==> s.failures < s.maxRetries + s.resumes)
  }

  /** A leased record that was handed out: if its version is still the row's, it is the row. */
  ghost predicate IssuedInv(s: System) {
    forall r <- s.issued ::
      && s.row.Some?
      && r.leaseOwner.Some? && r.leaseExpiresAt.Some? && !Terminal(r.health.state)
      && 1 <= r.version <= s.row.value.version && 1 <= r.fence <= s.row.value.fence
      && (r.version == s.row.value.version ==> r == s.row.value)
  }

  /** What an operator read while the account was paused. */
  ghost predicate OperatorInv(s: System) {
    forall o <- s.operators :: var r := s.operators[o];
      && s.row.Some?
      && r.health.state == Paused && r.leaseOwner.None? && r.leaseExpiresAt.None?
      && 1 <= r.version <= s.row.value.version && r.fence <= r.version
      && (r.version == s.row.value.version ==>
            r.fence == s.row.value.fence && r.retryCount == s.row.value.retryCount && s.row.value.leaseOwner.None?
            && s.row.value.health.state != Archived)
  }

  /** Lease windows follow one another; the last one is the row's lease. */
  ghost predicate WindowInv(s: System) {
    && (forall i :: 0 <= i < |s.windows| ==>
          s.row.Some? && 1 <= s.windows[i].fence <= s.row.value.fence && s.windows[i].start <= s.now)
    && (forall i, j :: 0 <= i < j < |s.windows| ==>
          s.windows[i].until <= s.windows[j].start && s.windows[i].fence < s.windows[j].fence)
    && (s.row.Some? && s.row.value.leaseOwner.Some? ==>
          && s.windows != []
          && var last := s.windows[|s.windows| - 1];
             last.fence == s.row.value.fence && Some(last.owner) == s.row.value.leaseOwner &&
                 Some(last.until) == s.row.value.leaseExpiresAt)
    && (s.windows != [] && s.row.Some? && s.row.value.leaseOwner.None? ==> s.windows[|s.windows| - 1].until <= s.now)
  }

  /** What an update written by the loop looks like. */
  predicate UpdateOk(maxRetries: nat, record: ConnectionRecord, u: Update) {
    && (u.release <==> Terminal(u.state))
    && u.state != Paused && u.state != Archived
    && (u.state == Active <==> u.errorCode.None?)
    && match u.errorCode
       case None => u.retryCount == 0
       case Some(RetryExhausted) => u.retryCount == record.retryCount + 1 && Terminal(u.state)
       case Some(RateLimited) => u.retryCount == record.retryCount + 1 < maxRetries
       case Some(ConnectionFailed) => u.retryCount == record.retryCount + 1 < maxRetries
       case _ => u.retryCount == record.retryCount && Terminal(u.state)
  }

  predicate Held(s: System, c: Config, record: ConnectionRecord) {
    record in s.issued && record.leaseOwner == Some(c.owner)
  }

  predicate PcInv(s: System, l: Loop) {
    && l.config.lease > 0.0 && l.config.maxRetries <= s.maxRetries
    && match l.pc
       case Starting => true
       case Ended => true
       case Saving(record, u) => Held(s, l.config, record) && UpdateOk(s.maxRetries, record, u)
       case Acquiring(record) => Held(s, l.config, record) && !Future(record.retryAt, s.now)
       case Ready(record) => Held(s, l.config, record) && !Future(record.retryAt, s.now)
       case Connecting(record) => Held(s, l.config, record) && !Future(record.retryAt, s.now)
       case _ => Held(s, l.config, l.pc.record)
  }

  /** Clients were created only for records whose retry time had passed, and the row differed from
      the record only if a later version had been written. */
  ghost predicate CreationInv(s: System) {
    forall i :: 0 <= i < |s.creations| ==>
      var c := s.creations[i];
      && !Future(c.record.retryAt, c.at)
      && c.record.leaseOwner.Some?
      && c.row.Some? && (c.row.value == c.record || c.row.value.version > c.record.version)
  }

  ghost predicate Inv(s: System) {
    && s.maxRetries >= 1
    && RowInv(s) && RetryInv(s) && IssuedInv(s) && OperatorInv(s) && WindowInv(s) && CreationInv(s)
    && (forall id <- s.loops :: PcInv(s, s.loops[id]))
  }

  /** How one repository operation may change the row. */
  predicate Next(row: ConnectionRecord, row': ConnectionRecord, now: Instant) {
    && row'.version == row.version + 1
    && Shape(row')
    && row.fence <= row'.fence <= row.fence + 1
    && (row'.leaseOwner.Some? ==>
          && row'.fence >= 1
          && (if row'.fence == row.fence then row.leaseOwner == row'.leaseOwner
              else row.leaseOwner.None? || Lapsed(row.leaseExpiresAt, now)))
  }

  predicate RowMove(row: Row, row': Row, now: Instant) {
    row' == row || (row.Some? && row'.Some? && Next(row.value, row'.value, now))
  }

  /** A record received from the repository is the new row, under the loop's own owner. */
  predicate Received(row: Row, row': Row, owner: Uuid, received: Option<ConnectionRecord>) {
    received.Some? ==> received == row' && row' != row && (received.value.leaseOwner.Some? ==>
      received.value.leaseOwner == Some(owner) && !Terminal(received.value.health.state))
  }

  lemma ProceedsMoves(s: System, l: Loop)
    requires Inv(s) && PcInv(s, l)
    ensures var m := Proceeds(s.row, l.config, l.pc, s.now);
            RowMove(s.row, m.row, s.now) && Received(s.row, m.row, l.config.owner, m.received)
  {
    if l.pc.Saving? {
      assert l.pc.record in s.issued;
    }
  }

  lemma AdvanceMoves(s: System, l: Loop, input: Input)
    requires Inv(s) && PcInv(s, l)
    ensures var m := Advance(s.row, l.config, l.pc, input, s.now);
            RowMove(s.row, m.row, s.now) && Received(s.row, m.row, l.config.owner, m.received)
  {
    if input.Proceed? {
      ProceedsMoves(s, l);
    }
  }

  /** The system t is s after a repository operation at s.now, with the record it handed out. */
  ghost predicate Moved(s: System, t: System, issued: Option<ConnectionRecord>) {
    && RowMove(s.row, t.row, s.now)
    && t.now == s.now && t.operators == s.operators
    && t.windows == Track(s.windows, s.row, t.row, s.now)
    && t.issued == (if issued.Some? then s.issued + {issued.value} else s.issued)
    && (issued.Some? ==>
          issued == t.row && t.row != s.row && issued.value.leaseOwner.Some? && !Terminal(issued.value.health.state))
  }

  lemma IssuedKept(s: System, t: System, issued: Option<ConnectionRecord>)
    requires Inv(s) && Moved(s, t, issued)
    ensures IssuedInv(t) && OperatorInv(t)
  {
  }

  /** Each window ends before the next one starts, because a claim needs the row free or lapsed. */
  lemma WindowsKept(s: System, t: System, issued: Option<ConnectionRecord>)
    requires Inv(s) && Moved(s, t, issued)
    ensures WindowInv(t)
  {
    if t.row != s.row && |t.windows| > |s.windows| {
      var n := |s.windows|;
      forall i | 0 <= i < n
        ensures s.windows[i].until <= s.now && s.windows[i].fence < t.row.value.fence
      {
        assert i < n - 1 ==>
            s.windows[i].until <= s.windows[n - 1].start && s.windows[i].fence < s.windows[n - 1].fence;
      }
    }
  }

  lemma RowShapeKept(s: System, id: nat, input: Input)
    requires Inv(s) && id in s.loops
    ensures RowInv(After(s, id, Advance(s.row, s.loops[id].config, s.loops[id].pc, input, s.now)))
  {
    assert PcInv(s, s.loops[id]);
    AdvanceMoves(s, s.loops[id], input);
    hide Advance;
  }

  /** A step that does not save counts nothing. */
  lemma OnlySavesCount(s: System, id: nat, input: Input)
    requires id in s.loops && RowInv(s) && RetryInv(s) && !(s.loops[id].pc.Saving? && input.Proceed?)
    ensures RetryInv(After(s, id, Advance(s.row, s.loops[id].config, s.loops[id].pc, input, s.now)))
  {
  }

  lemma SaveCounts(s: System, id: nat)
    requires Inv(s) && id in s.loops && s.loops[id].pc.Saving?
    ensures RetryInv(After(s, id, Advance(s.row, s.loops[id].config, s.loops[id].pc, Proceed, s.now)))
  {
    var pc := s.loops[id].pc;
    assert PcInv(s, s.loops[id]) && pc.record in s.issued;
    if SqlSaveClaimed(s.row, Updated(pc.record, pc.update, s.now), s.loops[id].config.owner, pc.update.release,
        s.now).1.Some? {
      assert s.row == Some(pc.record);
    }
  }

  lemma RetriesKept(s: System, id: nat, input: Input)
    requires Inv(s) && id in s.loops
    ensures
      var t := After(s, id, Advance(s.row, s.loops[id].config, s.loops[id].pc, input, s.now));
      RowInv(t) && RetryInv(t)
  {
    RowShapeKept(s, id, input);
    if s.loops[id].pc.Saving? && input.Proceed? {
      SaveCounts(s, id);
    } else {
      OnlySavesCount(s, id, input);
    }
  }

  lemma AttemptUpdateOk(s: System, c: Config, record: ConnectionRecord, attempt: Attempt)
    requires c.maxRetries <= s.maxRetries
    ensures UpdateOk(s.maxRetries, record, AttemptUpdate(c, record, attempt, s.now))
  {
  }

  /** The mover's position is good after its step. */
  ghost predicate MoverOk(s: System, id: nat, input: Input)
    requires id in s.loops
  {
    var t := After(s, id, Advance(s.row, s.loops[id].config, s.loops[id].pc, input, s.now));
    PcInv(t, t.loops[id])
  }

  lemma ClaimKept(s: System, id: nat)
    requires id in s.loops && PcInv(s, s.loops[id])
    requires (s.loops[id].pc.Starting? || s.loops[id].pc.Renewing? || s.loops[id].pc.Monitoring?)
    requires var l := s.loops[id];
             Received(s.row, Advance(s.row, l.config, l.pc, Proceed, s.now).row, l.config.owner,
                 Advance(s.row, l.config, l.pc, Proceed, s.now).received)
    ensures MoverOk(s, id, Proceed)
  {
  }

  lemma SavingKept(s: System, id: nat)
    requires id in s.loops && PcInv(s, s.loops[id]) && s.loops[id].pc.Saving?
    ensures MoverOk(s, id, Proceed)
  {
  }

  lemma ChecksKept(s: System, id: nat)
    requires id in s.loops && PcInv(s, s.loops[id])
    requires var pc := s.loops[id].pc; !pc.Starting? && !pc.Renewing? && !pc.Monitoring? && !pc.Saving?
    ensures MoverOk(s, id, Proceed)
  {
  }

  lemma AttemptKept(s: System, id: nat, attempt: Attempt)
    requires id in s.loops && PcInv(s, s.loops[id])
    ensures MoverOk(s, id, AttemptEnds(attempt))
  {
    var l := s.loops[id];
    if l.pc.Connecting? || l.pc.Ready? {
      AttemptUpdateOk(s, l.config, l.pc.record, attempt);
    }
  }

  lemma AnswersKept(s: System, id: nat, input: Input)
    requires id in s.loops && PcInv(s, s.loops[id]) && !input.Proceed? && !input.AttemptEnds?
    ensures MoverOk(s, id, input)
  {
  }

  lemma LoopKept(s: System, id: nat, input: Input)
    requires Inv(s) && id in s.loops
    ensures MoverOk(s, id, input)
  {
    var l := s.loops[id];
    assert PcInv(s, l);
    AdvanceMoves(s, l, input);
    hide Inv, MoverOk, PcInv, RowMove, Received;
    match input
    case Proceed =>
      if l.pc.Starting? || l.pc.Renewing? || l.pc.Monitoring? {
        ClaimKept(s, id);
      } else if l.pc.Saving? {
        SavingKept(s, id);
      } else {
        ChecksKept(s, id);
      }
    case AttemptEnds(attempt) => AttemptKept(s, id, attempt);
    case _ => AnswersKept(s, id, input);
  }

  lemma CreationsKept(s: System, id: nat, input: Input)
    requires Inv(s) && id in s.loops
    ensures
      var t := After(s, id, Advance(s.row, s.loops[id].config, s.loops[id].pc, input, s.now));
      CreationInv(t)
  {
    var l := s.loops[id];
    assert PcInv(s, l);
    if l.pc.Ready? {
      assert l.pc.record in s.issued;
    }
  }

  /** Positions stay good while records are handed out and time passes. */
  lemma PositionStands(s: System, t: System, l: Loop)
    requires PcInv(s, l) && s.issued <= t.issued && s.now <= t.now && s.maxRetries == t.maxRetries
    ensures PcInv(t, l)
  {
  }

  lemma OtherLoopsStand(s: System, t: System, loops: map<nat, Loop>)
    requires s.issued <= t.issued && s.now <= t.now && s.maxRetries == t.maxRetries
    requires forall id <- loops :: PcInv(s, loops[id])
    ensures forall id <- loops :: PcInv(t, loops[id])
  {
    hide PcInv;
    forall id | id in loops
      ensures PcInv(t, loops[id])
    {
      PositionStands(s, t, loops[id]);
    }
  }

  lemma LoopsAreGood(s: System)
    requires Inv(s)
    ensures forall id <- s.loops :: PcInv(s, s.loops[id])
  {
  }

  lemma AfterKeepsRest(s: System, id: nat, m: Move)
    requires id in s.loops
    ensures
      var t := After(s, id, m);
      && t.maxRetries == s.maxRetries && t.now == s.now && s.issued <= t.issued
      && t.loops.Keys == s.loops.Keys && forall i <- s.loops :: i != id ==> t.loops[i] == s.loops[i]
  {
  }

  lemma ActKeepsInv(s: System, id: nat, input: Input)
    requires Inv(s) && id in s.loops
    ensures Inv(Step(s, Act(id, input)))
  {
    var m := Advance(s.row, s.loops[id].config, s.loops[id].pc, input, s.now);
    var t := After(s, id, m);
    assert t == Step(s, Act(id, input));
    LoopsAreGood(s);
    hide RowInv, RetryInv, IssuedInv, OperatorInv, WindowInv, CreationInv, PcInv, Advance, Moved, MoverOk, After;
    AfterKeepsRest(s, id, m);
    ActMoves(s, id, input);
    var issued := if m.received.Some? && m.received.value.leaseOwner.Some? then m.received else None;
    IssuedKept(s, t, issued);
    WindowsKept(s, t, issued);
    RetriesKept(s, id, input);
    MoverKept(s, id, input);
    CreationsKept(s, id, input);
    OtherLoopsStand(s, t, s.loops);
  }

  lemma MoverKept(s: System, id: nat, input: Input)
    requires Inv(s) && id in s.loops
    ensures
      var t := After(s, id, Advance(s.row, s.loops[id].config, s.loops[id].pc, input, s.now));
      PcInv(t, t.loops[id])
  {
    hide Inv;
    LoopKept(s, id, input);
  }

  lemma ActMoves(s: System, id: nat, input: Input)
    requires Inv(s) && id in s.loops
    ensures
      var m := Advance(s.row, s.loops[id].config, s.loops[id].pc, input, s.now);
      Moved(s, After(s, id, m), if m.received.Some? && m.received.value.leaseOwner.Some? then m.received else None)
  {
    assert PcInv(s, s.loops[id]);
    AdvanceMoves(s, s.loops[id], input);
  }

  lemma ForceKeepsInv(s: System, state: HealthState)
    requires Inv(s)
    ensures Inv(Step(s, Force(state)))
  {
    if state == Paused || state == Archived {
      var t := Step(s, Force(state));
      ForceMoves(s, state);
      IssuedKept(s, t, None);
      WindowsKept(s, t, None);
      OtherLoopsStand(s, t, s.loops);
      hide IssuedInv, OperatorInv, WindowInv, PcInv, Moved, Track;
    }
  }

  lemma ForceMoves(s: System, state: HealthState)
    requires Inv(s) && (state == Paused || state == Archived)
    ensures
      var t := Step(s, Force(state));
      Moved(s, t, None) && RowInv(t) && RetryInv(t)
  {
  }

  lemma OverwriteKeepsInv(s: System, e: Event)
    requires Inv(s) && Orderly(s, e) && (e.Import? || e.ResumeSave?)
    ensures Inv(Step(s, e))
  {
    var t := Step(s, e);
    LoopsAreGood(s);
    hide RowInv, RetryInv, IssuedInv, OperatorInv, WindowInv, CreationInv, PcInv, Orderly, SqlSave;
    OverwriteKeepsRow(s, e);
    OverwriteKeepsHolders(s, e);
    OverwriteKeepsWindows(s, e);
    OtherLoopsStand(s, t, s.loops);
    CreationsStand(s, t);
  }

  lemma CreationsStand(s: System, t: System)
    requires CreationInv(s) && s.creations == t.creations
    ensures CreationInv(t)
  {
  }

  lemma OverwriteKeepsRow(s: System, e: Event)
    requires Inv(s) && Orderly(s, e) && (e.Import? || e.ResumeSave?)
    ensures RowInv(Step(s, e)) && RetryInv(Step(s, e))
  {
    if e.ResumeSave? && e.operator in s.operators {
      assert s.operators[e.operator].version >= 1;
    }
  }

  lemma OverwriteKeepsHolders(s: System, e: Event)
    requires Inv(s) && Orderly(s, e) && (e.Import? || e.ResumeSave?)
    ensures IssuedInv(Step(s, e)) && OperatorInv(Step(s, e))
  {
    if e.ResumeSave? && e.operator in s.operators {
      assert s.operators[e.operator].version >= 1;
    }
  }

  lemma OverwriteKeepsWindows(s: System, e: Event)
    requires Inv(s) && Orderly(s, e) && (e.Import? || e.ResumeSave?)
    ensures WindowInv(Step(s, e))
  {
    if e.ResumeSave? && e.operator in s.operators {
      assert s.operators[e.operator].version >= 1;
    }
  }

  lemma WindowsStand(s: System, t: System)
    requires WindowInv(s) && t.row == s.row && t.windows == s.windows && s.now <= t.now
    ensures WindowInv(t)
  {
    forall i | 0 <= i < |t.windows|
      ensures t.row.Some? && 1 <= t.windows[i].fence <= t.row.value.fence && t.windows[i].start <= t.now
    {
      assert t.windows[i] == s.windows[i];
    }
  }

  lemma ElapseKeepsInv(s: System, later: Instant)
    requires Inv(s) && s.now <= later
    ensures Inv(s.(now := later))
  {
    var t := s.(now := later);
    OtherLoopsStand(s, t, s.loops);
    WindowsStand(s, t);
    hide PcInv, WindowInv;
  }

  lemma StartKeepsInv(s: System, id: nat, c: Config)
    requires Inv(s) && id !in s.loops && c.lease > 0.0 && c.maxRetries <= s.maxRetries
    ensures Inv(s.(loops := s.loops[id := Loop(c, Starting)]))
  {
    var t := s.(loops := s.loops[id := Loop(c, Starting)]);
    OtherLoopsStand(s, t, s.loops);
    WindowsStand(s, t);
    assert PcInv(t, Loop(c, Starting));
    hide PcInv, WindowInv;
  }

  lemma ReadKeepsInv(s: System, operator: nat)
    requires Inv(s) && s.row.Some? && s.row.value.health.state == Paused
    ensures Inv(s.(operators := s.operators[operator := s.row.value]))
  {
    var t := s.(operators := s.operators[operator := s.row.value]);
    OtherLoopsStand(s, t, s.loops);
    WindowsStand(s, t);
    assert OperatorInv(t);
    hide PcInv, WindowInv;
  }

  lemma StepKeepsInv(s: System, e: Event)
    requires Inv(s) && Orderly(s, e)
    ensures Inv(Step(s, e))
  {
    hide Inv;
    if e.Act? {
      if e.id in s.loops {
        ActKeepsInv(s, e.id, e.input);
      }
    } else if e.Force? {
      ForceKeepsInv(s, e.state);
    } else if e.Import? || e.ResumeSave? {
      OverwriteKeepsInv(s, e);
    } else if e.Elapse? {
      if e.seconds >= 0.0 {
        ElapseKeepsInv(s, s.now + e.seconds);
      }
    } else if e.Start? {
      if Step(s, e) != s {
        StartKeepsInv(s, e.id, e.config);
      }
    } else if Step(s, e) != s {
      ReadKeepsInv(s, e.operator);
    }
  }

  lemma {:induction false} RunKeepsInv(s: System, events: seq<Event>)
    requires Inv(s) && OrderlyRun(s, events)
    ensures Inv(Run(s, events))
    decreases |events|
  {
    if events != [] {
      StepKeepsInv(s, events[0]);
      RunKeepsInv(Step(s, events[0]), events[1..]);
    }
  }
}
