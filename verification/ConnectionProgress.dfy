/** Where a supervisor gets to: the reconnect loop as it executes is a run of the system, so what its history says
    about the row happens there; and what pauses, archives, imports, resumes, claims and failed monitors write. */
module ConnectionProgress {
  import opened Common
  import opened ConnectionModel
  import opened ConnectionSystem
  import opened ReconnectLoop

  // ---- one loop by itself ----

  /** What one loop sees of the system. */
  datatype View = View(row: Row, pc: Pc, now: Instant)

  /** Time passes, or the loop gets an input. */
  datatype Deed = Pass(seconds: real) | Do(input: Input)

  function Done(c: Config, v: View, d: Deed): View {
    match d
    case Pass(seconds) => if seconds < 0.0 then v else v.(now := v.now + seconds)
    case Do(input) => var m := Advance(v.row, c, v.pc, input, v.now); View(m.row, m.pc, v.now)
  }

  function AllDone(c: Config, v: View, deeds: seq<Deed>): View
    decreases |deeds|
  {
    if deeds == [] then v else AllDone(c, Done(c, v, deeds[0]), deeds[1..])
  }

  lemma {:induction false} AllDoneAppend(c: Config, v: View, a: seq<Deed>, b: seq<Deed>)
    ensures AllDone(c, v, a + b) == AllDone(c, AllDone(c, v, a), b)
    decreases |a|
  {
    if a == [] {
      assert a + b == b;
    } else {
      assert (a + b)[1..] == a[1..] + b;
      AllDoneAppend(c, Done(c, v, a[0]), a[1..], b);
    }
  }

  lemma DoneOne(c: Config, v: View, a: Deed)
    ensures AllDone(c, v, [a]) == Done(c, v, a)
  {
  }

  lemma DoneTwo(c: Config, v: View, a: Deed, b: Deed)
    ensures AllDone(c, v, [a, b]) == Done(c, Done(c, v, a), b)
  {
    AllDoneAppend(c, v, [a], [b]);
    assert [a] + [b] == [a, b];
  }

  lemma DoneThree(c: Config, v: View, a: Deed, b: Deed, d: Deed)
    ensures AllDone(c, v, [a, b, d]) == Done(c, Done(c, Done(c, v, a), b), d)
  {
    AllDoneAppend(c, v, [a, b], [d]);
    assert [a, b] + [d] == [a, b, d];
    DoneTwo(c, v, a, b);
  }

  predicate Sees(s: System, id: nat, c: Config, v: View) {
    id in s.loops && s.loops[id] == Loop(c, v.pc) && s.row == v.row && s.now == v.now
  }

  function EventOf(id: nat, d: Deed): Event {
    match d
    case Pass(seconds) => Elapse(seconds)
    case Do(input) => Act(id, input)
  }

  function Events(id: nat, deeds: seq<Deed>): seq<Event> {
    seq(|deeds|, k requires 0 <= k < |deeds| => EventOf(id, deeds[k]))
  }

  lemma {:induction false} RunShowsDeeds(s: System, id: nat, c: Config, v: View, deeds: seq<Deed>)
    requires Sees(s, id, c, v)
    ensures Sees(Run(s, Events(id, deeds)), id, c, AllDone(c, v, deeds))
    decreases |deeds|
  {
    if deeds != [] {
      assert Events(id, deeds)[1..] == Events(id, deeds[1..]);
      RunShowsDeeds(Step(s, EventOf(id, deeds[0])), id, c, Done(c, v, deeds[0]), deeds[1..]);
    }
  }

  // ---- the loop's deeds in a given world ----

  function OperationDeeds(operations: seq<real>): seq<Deed> {
    if operations == [] then [] else [Pass(operations[0]), Do(Proceed)] + OperationDeeds(operations[1..])
  }

  /** The deed of sleeping through the wait that ends the log, if one does. */
  function SleepDeeds(log: seq<Entry>): seq<Deed> {
    if log != [] && log[|log| - 1].Waited?
    then [Pass(log[|log| - 1].until - log[|log| - 1].from), Do(Proceed)] else []
  }

  function AttemptDeeds(c: Config, record: ConnectionRecord, at: Instant, world: World, k: nat): seq<Deed> {
    OperationDeeds(world.operations(k))
    + [Pass(world.last(k)), Do(AttemptEnds(world.attempt(k))), Do(Proceed)]
    + SleepDeeds(AttemptOf(c, record, at, world, k).log)
  }

  function RoundDeeds(c: Config, record: ConnectionRecord, now: Instant, world: World, k: nat): seq<Deed> {
    [Pass(world.acquire(k)), Do(ProxyAnswer(world.proxyUp(k))), Do(Proceed)]
    + if world.proxyUp(k) then AttemptDeeds(c, record, now + world.acquire(k), world, k) else []
  }

  function TurnDeeds(c: Config, record: ConnectionRecord, now: Instant, world: World, k: nat): seq<Deed> {
    var renewed := SqlRenewLease(Some(record), record, c.owner, c.lease, now).1;
    [Do(Proceed), Do(Proceed)]
    + if renewed.None? then []
      else if Future(renewed.value.retryAt, now) then SleepDeeds([RetryWait(renewed.value, now, world.late(k))])
      else RoundDeeds(c, renewed.value, now, world, k)
  }

  function LoopDeeds(c: Config, record: ConnectionRecord, now: Instant, world: World, k: nat): seq<Deed>
    requires world.Sane()
    decreases Left(c, record), if Future(record.retryAt, now) then 1 else 0
  {
    var turn := TurnOf(c, record, now, world, k);
    TurnDeeds(c, record, now, world, k)
    + if !turn.goesOn then []
      else
        TurnGoesOn(c, record, now, world, k);
        LoopDeeds(c, turn.row, turn.now, world, NextRound(record, now, k))
  }

  /** The view after a part of the loop with this result: about to begin the next turn, or at an end, which is the
      monitor exactly if the last thing that happened was to persist `active`. */
  predicate Reached(v: View, r: Result) {
    && v.row == Some(r.row)
    && if r.goesOn then v.pc == Renewing(r.row) && v.now == r.now
       else v.pc == (if Activated(r.log) then Monitoring(r.row) else Ended)
  }

  predicate Activated(log: seq<Entry>) {
    log != [] && log[|log| - 1].StateSaved? && log[|log| - 1].row.health.state == Active
  }

  lemma {:induction false} EndedStays(c: Config, v: View, deeds: seq<Deed>)
    requires v.pc.Ended?
    ensures AllDone(c, v, deeds).pc.Ended? && AllDone(c, v, deeds).row == v.row
    decreases |deeds|
  {
    if deeds != [] {
      EndedStays(c, Done(c, v, deeds[0]), deeds[1..]);
    }
  }

  lemma {:induction false} OperationsChecked(c: Config, record: ConnectionRecord, now: Instant, operations: seq<real>)
    requires forall i :: 0 <= i < |operations| ==> operations[i] >= 0.0
    ensures
      var v := AllDone(c, View(Some(record), Connecting(record), now), OperationDeeds(operations));
      var (held, at) := ChecksPass(record, c.owner, now, operations);
      v.row == Some(record) && if held then v.pc == Connecting(record) && v.now == at else v.pc == Ended
    decreases |operations|
  {
    if operations != [] {
      var v := View(Some(record), Connecting(record), now);
      var two := [Pass(operations[0]), Do(Proceed)];
      AllDoneAppend(c, v, two, OperationDeeds(operations[1..]));
      DoneTwo(c, v, two[0], two[1]);
      if OwnsClaim(Some(record), record, c.owner, now + operations[0]) {
        OperationsChecked(c, record, now + operations[0], operations[1..]);
      } else {
        EndedStays(c, AllDone(c, v, two), OperationDeeds(operations[1..]));
      }
    }
  }

  /** The end of an attempt, its save and the wait after it. */
  lemma EndReached(c: Config, record: ConnectionRecord, at: Instant, world: World, k: nat, v: View)
    requires world.Sane() && c.maxBackoff > 0.0
    requires
      var (held, checked) := ChecksPass(record, c.owner, at, world.operations(k));
      held && v == View(Some(record), Connecting(record), checked)
    ensures
      var r := AttemptOf(c, record, at, world, k);
      var u := AllDone(c, v, [Pass(world.last(k)), Do(AttemptEnds(world.attempt(k))), Do(Proceed)]);
      Reached(AllDone(c, u, SleepDeeds(r.log)), r)
  {
    PowerPositive(record.retryCount);
    var r := AttemptOf(c, record, at, world, k);
    DoneThree(c, v, Pass(world.last(k)), Do(AttemptEnds(world.attempt(k))), Do(Proceed));
    var u := AllDone(c, v, [Pass(world.last(k)), Do(AttemptEnds(world.attempt(k))), Do(Proceed)]);
    if |r.log| == 2 {
      DoneTwo(c, u, Pass(r.log[1].until - r.log[1].from), Do(Proceed));
    }
  }

  lemma AttemptReached(c: Config, record: ConnectionRecord, at: Instant, world: World, k: nat)
    requires world.Sane() && c.maxBackoff > 0.0
    ensures
      var v := AllDone(c, View(Some(record), Connecting(record), at), AttemptDeeds(c, record, at, world, k));
      Reached(v, AttemptOf(c, record, at, world, k))
  {
    var r := AttemptOf(c, record, at, world, k);
    var v := View(Some(record), Connecting(record), at);
    var ops := OperationDeeds(world.operations(k));
    var end := [Pass(world.last(k)), Do(AttemptEnds(world.attempt(k))), Do(Proceed)];
    AllDoneAppend(c, v, ops + end, SleepDeeds(r.log));
    AllDoneAppend(c, v, ops, end);
    OperationsChecked(c, record, at, world.operations(k));
    var checked := AllDone(c, v, ops);
    if ChecksPass(record, c.owner, at, world.operations(k)).0 {
      EndReached(c, record, at, world, k, checked);
    } else {
      EndedStays(c, checked, end);
      EndedStays(c, AllDone(c, checked, end), SleepDeeds(r.log));
    }
  }

  lemma RoundReached(c: Config, record: ConnectionRecord, now: Instant, world: World, k: nat)
    requires world.Sane() && c.maxBackoff > 0.0
    ensures
      var v := AllDone(c, View(Some(record), Acquiring(record), now), RoundDeeds(c, record, now, world, k));
      Reached(v, RoundOf(c, record, now, world, k))
  {
    hide AttemptOf, AttemptUpdate, AllDone;
    var v := View(Some(record), Acquiring(record), now);
    var at := now + world.acquire(k);
    var three := [Pass(world.acquire(k)), Do(ProxyAnswer(world.proxyUp(k))), Do(Proceed)];
    var rest := if world.proxyUp(k) then AttemptDeeds(c, record, at, world, k) else [];
    AllDoneAppend(c, v, three, rest);
    DoneThree(c, v, three[0], three[1], three[2]);
    var u := AllDone(c, v, three);
    if OwnsClaim(Some(record), record, c.owner, at) {
      if world.proxyUp(k) {
        assert u == View(Some(record), Connecting(record), at);
        AttemptReached(c, record, at, world, k);
        PrefixReached(AllDone(c, v, three + rest), [Attempted(at, record)], AttemptOf(c, record, at, world, k));
      } else {
        DoneNone(c, u);
      }
    } else {
      EndedStays(c, u, rest);
    }
  }

  lemma DoneNone(c: Config, v: View)
    ensures AllDone(c, v, []) == v
  {
  }

  /** What happened before a part of the loop does not matter for where it ends, unless that part did nothing. */
  lemma PrefixReached(v: View, log: seq<Entry>, r: Result)
    requires Reached(v, r) && !Activated(log)
    ensures Reached(v, r.(log := log + r.log))
  {
  }

  lemma TurnReached(c: Config, record: ConnectionRecord, now: Instant, world: World, k: nat)
    requires world.Sane() && c.maxBackoff > 0.0
    ensures
      var v := AllDone(c, View(Some(record), Renewing(record), now), TurnDeeds(c, record, now, world, k));
      Reached(v, TurnOf(c, record, now, world, k))
  {
    hide RoundOf, RoundDeeds, AllDone;
    var v := View(Some(record), Renewing(record), now);
    var renewed := SqlRenewLease(Some(record), record, c.owner, c.lease, now).1;
    var two := [Do(Proceed), Do(Proceed)];
    DoneTwo(c, v, two[0], two[1]);
    var u := AllDone(c, v, two);
    if renewed.None? {
      assert two + [] == two;
      assert u == View(Some(record), Ended, now);
    } else {
      var held := renewed.value;
      if Future(held.retryAt, now) {
        var wait := RetryWait(held, now, world.late(k));
        AllDoneAppend(c, v, two, SleepDeeds([wait]));
        DoneTwo(c, u, Pass(wait.until - wait.from), Do(Proceed));
      } else {
        AllDoneAppend(c, v, two, RoundDeeds(c, held, now, world, k));
        RoundReached(c, held, now, world, k);
        var end := AllDone(c, u, RoundDeeds(c, held, now, world, k));
        PrefixReached(end, [LeaseRenewed(now, held)], RoundOf(c, held, now, world, k));
      }
    }
  }

  lemma {:induction false} LoopReached(c: Config, record: ConnectionRecord, now: Instant, world: World, k: nat)
    requires world.Sane() && c.maxBackoff > 0.0
    ensures
      var v := AllDone(c, View(Some(record), Renewing(record), now), LoopDeeds(c, record, now, world, k));
      Reached(v, LoopOf(c, record, now, world, k)) && !LoopOf(c, record, now, world, k).goesOn
    decreases Left(c, record), if Future(record.retryAt, now) then 1 else 0
  {
    hide TurnOf, TurnDeeds, AllDone;
    var turn := TurnOf(c, record, now, world, k);
    var v := View(Some(record), Renewing(record), now);
    TurnReached(c, record, now, world, k);
    if turn.goesOn {
      TurnGoesOn(c, record, now, world, k);
      var next := NextRound(record, now, k);
      AllDoneAppend(c, v, TurnDeeds(c, record, now, world, k), LoopDeeds(c, turn.row, turn.now, world, next));
      LoopReached(c, turn.row, turn.now, world, next);
      NotActivated(c, record, now, world, k);
      PrefixReached(AllDone(c, v, LoopDeeds(c, record, now, world, k)), turn.log,
          LoopOf(c, turn.row, turn.now, world, next));
    } else {
      assert TurnDeeds(c, record, now, world, k) + [] == TurnDeeds(c, record, now, world, k);
    }
  }

  lemma NotActivated(c: Config, record: ConnectionRecord, now: Instant, world: World, k: nat)
    requires TurnOf(c, record, now, world, k).goesOn
    ensures !Activated(TurnOf(c, record, now, world, k).log)
  {
  }

  /** The reconnect loop as it executes, in any world, is a run of the system: some sequence of its own inputs and of
      waiting, from a state in which it is about to renew the row it holds, ends with the row that the loop leaves, and
      with the loop in its monitor exactly if that is `active`, ended otherwise. */
  lemma LoopIsARun(s: System, id: nat, c: Config, record: ConnectionRecord, world: World)
    requires id in s.loops && s.loops[id] == Loop(c, Renewing(record)) && s.row == Some(record)
    requires world.Sane() && c.maxBackoff > 0.0
    ensures
      var r := LoopOf(c, record, s.now, world, 0);
      var t := Run(s, Events(id, LoopDeeds(c, record, s.now, world, 0)));
      && t.row == Some(r.row) && id in t.loops
      && t.loops[id].pc == (if Activated(r.log) then Monitoring(r.row) else Ended)
  {
    hide AllDone, LoopOf, LoopDeeds;
    var v := View(Some(record), Renewing(record), s.now);
    RunShowsDeeds(s, id, c, v, LoopDeeds(c, record, s.now, world, 0));
    LoopReached(c, record, s.now, world, 0);
  }

  // ---- the other writers ----

  /** The row has no owner and nothing to wait for. */
  predicate Unleased(row: ConnectionRecord) {
    row.leaseOwner == None && row.leaseExpiresAt == None && row.retryAt == None
  }

  predicate SameAccount(a: ConnectionRecord, b: ConnectionRecord) {
    a.accountId == b.accountId && a.sessionId == b.sessionId
  }

  /** Nobody has written the row since this owner received the record. */
  predicate Stands(row: ConnectionRecord, record: ConnectionRecord, owner: Uuid) {
    row.version == record.version && row.fence == record.fence && row.leaseOwner == Some(owner)
  }

  /** A pause or an archive of a row that is not archived: that state, seen now, no error, no retry time, no lease,
      under the next version and fence; what was known of the proxy and the retries stays. */
  lemma ForcingWrites(s: System, state: HealthState)
    requires state == Paused || state == Archived
    ensures
      var t := Run(s, [Force(state)]);
      if s.row.None? || s.row.value.health.state == Archived then t.row == s.row
      else
        && t.row.Some? && SameAccount(t.row.value, s.row.value) && Unleased(t.row.value)
        && t.row.value.health.state == state && t.row.value.health.errorCode == None
        && t.row.value.health.lastSeenAt == Some(s.now)
        && t.row.value.health.proxyIp == s.row.value.health.proxyIp
        && t.row.value.health.latencyMs == s.row.value.health.latencyMs
        && t.row.value.retryCount == s.row.value.retryCount
        && t.row.value.version == s.row.value.version + 1 && t.row.value.fence == s.row.value.fence + 1
  {
    assert Run(s, [Force(state)]) == Step(s, Force(state));
  }

  /** A monitor that fails while its claim stands leaves the account in quarantine for that reason, without a lease and
      without a retry time; otherwise the row is as it was. Either way the monitor is over. */
  lemma FailedMonitorWrites(s: System, id: nat)
    requires id in s.loops && s.loops[id].pc.Monitoring?
    ensures
      var record := s.loops[id].pc.record;
      var t := Run(s, [Act(id, MonitorFails), Act(id, Proceed)]);
      && id in t.loops && t.loops[id].pc == Ended
      && if s.row.Some? && Stands(s.row.value, record, s.loops[id].config.owner)
            && s.row.value.health.state != Archived then
           && t.row.Some? && SameAccount(t.row.value, s.row.value) && Unleased(t.row.value)
           && t.row.value.health == Health(Quarantine, Some(s.now), None, None, Some(MonitorFailed))
           && t.row.value.retryCount == s.row.value.retryCount
           && t.row.value.version == s.row.value.version + 1 && t.row.value.fence == s.row.value.fence
         else t.row == s.row
  {
    RunTwo(s, Act(id, MonitorFails), Act(id, Proceed));
  }

  lemma RunTwo(s: System, a: Event, b: Event)
    ensures Run(s, [a, b]) == Step(Step(s, a), b)
  {
    assert [a, b][1..] == [b] && [b][1..] == [];
    assert Run(s, [a, b]) == Run(Step(s, a), [b]) == Run(Step(Step(s, a), b), []);
  }

  /** A supervisor that starts claims a row that nobody holds, or whose lease has run out, unless it is in a terminal
      state: it then holds it under the next version and fence; otherwise the row is as it was and it has ended. */
  lemma StartClaims(s: System, id: nat, c: Config)
    requires id !in s.loops && c.lease > 0.0 && 1 <= c.maxRetries <= s.maxRetries
    ensures
      var t := Run(s, [Start(id, c), Act(id, Proceed)]);
      && id in t.loops && t.loops[id].config == c
      && if s.row.None? || Terminal(s.row.value.health.state)
            || (s.row.value.leaseOwner.Some?
                && (s.row.value.leaseExpiresAt.None? || s.row.value.leaseExpiresAt.value > s.now))
         then t.row == s.row && t.loops[id].pc == Ended
         else
           && t.row.Some? && t.loops[id].pc == Renewing(t.row.value)
           && SameAccount(t.row.value, s.row.value) && t.row.value.health == s.row.value.health
           && t.row.value.retryCount == s.row.value.retryCount && t.row.value.retryAt == s.row.value.retryAt
           && t.row.value.leaseOwner == Some(c.owner) && t.row.value.leaseExpiresAt == Some(s.now + c.lease)
           && t.row.value.version == s.row.value.version + 1 && t.row.value.fence == s.row.value.fence + 1
  {
    RunTwo(s, Start(id, c), Act(id, Proceed));
  }

  /** The heartbeat of a monitor whose claim stands and whose lease still runs moves the expiry on and keeps the rest;
      any other heartbeat ends the monitor and leaves the row as it was. */
  lemma HeartbeatRenews(s: System, id: nat)
    requires id in s.loops && s.loops[id].pc.Monitoring?
    ensures
      var l := s.loops[id];
      var t := Run(s, [Act(id, Proceed)]);
      id in t.loops &&
      if s.row.Some? && Stands(s.row.value, l.pc.record, l.config.owner)
         && s.row.value.leaseExpiresAt.Some? && s.row.value.leaseExpiresAt.value > s.now
         && !Terminal(s.row.value.health.state)
      then
        && t.row == Some(s.row.value.(version := s.row.value.version + 1,
                                      leaseExpiresAt := Some(s.now + l.config.lease)))
        && t.loops[id].pc == Monitoring(t.row.value)
      else t.row == s.row && t.loops[id].pc == Ended
  {
    assert Run(s, [Act(id, Proceed)]) == Step(s, Act(id, Proceed));
  }

  /** A resume of a paused row that nobody has touched since: it is in quarantine, without an error, seen now, and
      everything else, the version too, is as it was. An import over no row, or over an unleased one, starts afresh. */
  lemma ResumeAndImportWrite(s: System, operator: nat, accountId: Uuid, sessionId: Uuid)
    requires s.row.None? || s.row.value.leaseOwner.None?
    ensures
      var t := Run(s, [ResumeRead(operator), ResumeSave(operator)]);
      s.row.Some? && s.row.value.health.state == Paused ==>
        && t.row.Some? && t.row.value == s.row.value.(health := t.row.value.health)
        && t.row.value.health == s.row.value.health.(state := Quarantine, lastSeenAt := Some(s.now), errorCode := None)
    ensures
      var t := Run(s, [Import(accountId, sessionId)]);
      && t.row.Some? && t.row.value.accountId == accountId && t.row.value.sessionId == sessionId
      && t.row.value.health == Health(Quarantine, Some(s.now), None, None, None)
      && t.row.value.retryCount == 0 && t.row.value.version == 0 && t.row.value.fence == 0 && Unleased(t.row.value)
  {
    RunTwo(s, ResumeRead(operator), ResumeSave(operator));
    assert Run(s, [Import(accountId, sessionId)]) == Step(s, Import(accountId, sessionId));
  }

  /** A dropped loop is over and writes nothing. */
  lemma DroppedLoopEnds(s: System, id: nat)
    requires id in s.loops
    ensures
      var t := Run(s, [Act(id, Drop)]);
      && t.row == s.row && t.loops == s.loops[id := s.loops[id].(pc := Ended)]
  {
    assert Run(s, [Act(id, Drop)]) == Step(s, Act(id, Drop));
  }

  /** The step writes `active`, or an operator's resume. */
  predicate Activates(s: System, e: Event) {
    && e.Act? && e.id in s.loops && s.loops[e.id].pc.Saving?
    && Step(s, e).row.Some? && Step(s, e).row != s.row && Step(s, e).row.value.health.state == Active
  }

  predicate Resumes(s: System, e: Event) {
    && e.ResumeSave? && e.operator in s.operators
    && (s.row.None? || (s.row.value.leaseOwner.None? && s.operators[e.operator].leaseOwner.None?))
  }

  /** The resumes that the retry bound allows for are the ones written since the last `active`. */
  lemma ResumesAreCounted(s: System, e: Event)
    ensures Step(s, e).resumes == if Resumes(s, e) then s.resumes + 1 else if Activates(s, e) then 0 else s.resumes
  {
  }
}
