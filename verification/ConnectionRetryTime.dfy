/** Clients and persisted retry times: what the ownership check before the creation of a client gives, and
    what it does not. */
module ConnectionRetryTime {
  import opened Common
  import opened ConnectionModel
  import opened ConnectionSystem
  import opened ConnectionSafety
  import opened ConnectionTheorems

  /** The client was created while the retry time in the row was in the future. */
  predicate Early(c: Creation) {
    c.row.Some? && Future(c.row.value.retryAt, c.at)
  }

  /** The loop still owned its claim at the very moment of the creation. */
  predicate Owned(c: Creation) {
    c.record.leaseOwner.Some? && OwnsClaim(c.row, c.record, c.record.leaseOwner.value, c.at)
  }

  /** Over whole runs, across restarts and takeovers: if every client is created by a loop that owns its
      claim at that moment, no client is created while the persisted retry time is in the future. */
  lemma OwnedClientsWait(maxRetries: nat, events: seq<Event>)
    requires maxRetries >= 1 && OrderlyRun(Initial(maxRetries), events)
    requires var s := Run(Initial(maxRetries), events); forall i :: 0 <= i < |s.creations| ==> Owned(s.creations[i])
    ensures var s := Run(Initial(maxRetries), events); forall i :: 0 <= i < |s.creations| ==> !Early(s.creations[i])
  {
    Reachable(maxRetries, events);
  }

  /** The converse, as far as it holds. A client is early only if its loop had lost the claim to somebody
      who rewrote the row; a claim that merely lapsed leaves the row and so its retry time as they were.
      Without any guard at the creation, the loop has at least waited for the retry time it knew. */
  lemma EarlyClientsWereOvertaken(maxRetries: nat, events: seq<Event>, i: nat)
    requires maxRetries >= 1 && OrderlyRun(Initial(maxRetries), events)
    requires i < |Run(Initial(maxRetries), events).creations|
    ensures
      var c := Run(Initial(maxRetries), events).creations[i];
      && c.row.Some? && c.record.leaseOwner.Some?
      && !Future(c.record.retryAt, c.at)
      && (Early(c) ==> !Owned(c) && c.row.value.version > c.record.version)
      && (c.row.value.version <= c.record.version ==> c.row.value == c.record)
      && (Owned(c) ==> c.row.value == c.record)
  {
    Reachable(maxRetries, events);
  }

  // ---- a run in which the promise fails ----

  /** A loop that starts, claims, renews, finds no retry time pending and gets its proxy. */
  function Acquire(id: nat, c: Config): seq<Event> {
    [Start(id, c), Act(id, Proceed), Act(id, Proceed), Act(id, Proceed), Act(id, ProxyAnswer(true))]
  }

  /** Loop 1 takes over after loop 0's lease of one second has lapsed, fails once and persists a retry time;
      then loop 0, whose last check was before that, creates its client. */
  function Overtaken(c0: Config, c1: Config): seq<Event> {
    [Import(1, 1)] + Acquire(0, c0) + [Elapse(2.0)] + Acquire(1, c1) + Failing(1) + [Act(0, Proceed)]
  }

  function Failing(id: nat): seq<Event> {
    [Act(id, AttemptEnds(Failure)), Act(id, Proceed)]
  }

  lemma {:induction false} RunAppend(s: System, a: seq<Event>, b: seq<Event>)
    ensures Run(s, a + b) == Run(Run(s, a), b)
    ensures OrderlyRun(s, a + b) <==> OrderlyRun(s, a) && OrderlyRun(Run(s, a), b)
    decreases |a|
  {
    if a == [] {
      assert a + b == b;
    } else {
      assert (a + b)[1..] == a[1..] + b;
      RunAppend(Step(s, a[0]), a[1..], b);
    }
  }

  lemma {:induction false} OnlySavesAreDisorderly(s: System, events: seq<Event>)
    requires forall i :: 0 <= i < |events| ==> !events[i].Import? && !events[i].ResumeSave?
    ensures OrderlyRun(s, events)
    decreases |events|
  {
    if events != [] {
      OnlySavesAreDisorderly(Step(s, events[0]), events[1..]);
    }
  }

  lemma RunOne(s: System, e: Event)
    ensures Run(s, [e]) == Step(s, e)
  {
    assert [e][1..] == [];
  }

  lemma RunFive(s: System, a: Event, b: Event, c: Event, d: Event, e: Event)
    ensures Run(s, [a, b, c, d, e]) == Step(Step(Step(Step(Step(s, a), b), c), d), e)
  {
    RunFour(s, a, b, c, d);
    RunAppend(s, [a, b, c, d], [e]);
    assert [a, b, c, d] + [e] == [a, b, c, d, e];
    RunOne(Step(Step(Step(Step(s, a), b), c), d), e);
  }

  /** The record after a claim and a renewal at the same instant. */
  function Held(record: ConnectionRecord, c: Config, now: Instant): ConnectionRecord {
    Renewed(Claimed(record, c.owner, c.lease, now), c.lease, now)
  }

  predicate CanStart(s: System, id: nat, c: Config) {
    && id !in s.loops && c.lease > 0.0 && 1 <= c.maxRetries <= s.maxRetries
    && s.row.Some? && !Terminal(s.row.value.health.state) && !LeasedOut(s.row.value, s.now)
    && !Future(s.row.value.retryAt, s.now)
  }

  lemma ClaimStep(s: System, id: nat, c: Config)
    requires CanStart(s, id, c)
    ensures
      var claimed := Claimed(s.row.value, c.owner, c.lease, s.now);
      var t := Step(Step(s, Start(id, c)), Act(id, Proceed));
      && t.row == Some(claimed) && t.loops == s.loops[id := Loop(c, Renewing(claimed))]
      && t.now == s.now && t.creations == s.creations && t.maxRetries == s.maxRetries
  {
    var started := Step(s, Start(id, c));
    assert started.row == s.row && started.loops == s.loops[id := Loop(c, Starting)];
  }

  lemma RenewStep(s: System, id: nat, c: Config, record: ConnectionRecord)
    requires id in s.loops && s.loops[id] == Loop(c, Renewing(record)) && c.lease > 0.0
    requires s.row == Some(record) && record.leaseOwner == Some(c.owner) && Live(record.leaseExpiresAt, s.now)
    requires !Terminal(record.health.state)
    ensures
      var renewed := Renewed(record, c.lease, s.now);
      var t := Step(s, Act(id, Proceed));
      && t.row == Some(renewed) && t.loops == s.loops[id := Loop(c, Deciding(renewed))]
      && t.now == s.now && t.creations == s.creations && t.maxRetries == s.maxRetries
  {
  }

  lemma ProxyStep(s: System, id: nat, c: Config, record: ConnectionRecord)
    requires id in s.loops && s.loops[id] == Loop(c, Deciding(record)) && !Terminal(record.health.state)
    requires s.row == Some(record) && record.leaseOwner == Some(c.owner) && Live(record.leaseExpiresAt, s.now)
    requires !Future(record.retryAt, s.now)
    ensures
      var t := Step(Step(s, Act(id, Proceed)), Act(id, ProxyAnswer(true)));
      && t.row == s.row && t.loops == s.loops[id := Loop(c, Ready(record))]
      && t.now == s.now && t.creations == s.creations && t.maxRetries == s.maxRetries
  {
    var decided := Step(s, Act(id, Proceed));
    assert decided.row == s.row && decided.now == s.now && decided.loops == s.loops[id := Loop(c, Acquiring(record))];
  }

  lemma AcquireGetsReady(s: System, id: nat, c: Config)
    requires CanStart(s, id, c)
    ensures
      var t := Run(s, Acquire(id, c));
      var held := Held(s.row.value, c, s.now);
      && t.row == Some(held) && t.loops == s.loops[id := Loop(c, Ready(held))]
      && t.now == s.now && t.creations == s.creations && t.maxRetries == s.maxRetries
  {
    RunFive(s, Start(id, c), Act(id, Proceed), Act(id, Proceed), Act(id, Proceed), Act(id, ProxyAnswer(true)));
    ClaimStep(s, id, c);
    hide Step;
    var claimed := Claimed(s.row.value, c.owner, c.lease, s.now);
    var s1 := Step(Step(s, Start(id, c)), Act(id, Proceed));
    RenewStep(s1, id, c, claimed);
    ProxyStep(Step(s1, Act(id, Proceed)), id, c, Renewed(claimed, c.lease, s.now));
  }

  /** A failure with retries left is persisted with a retry time ahead. */
  lemma FailingPersistsRetryTime(s: System, id: nat, c: Config, record: ConnectionRecord)
    requires id in s.loops && s.loops[id] == Loop(c, Ready(record)) && record.retryCount + 1 < c.maxRetries
    requires c.maxBackoff > 0.0
    requires s.row == Some(record) && record.leaseOwner == Some(c.owner) && Live(record.leaseExpiresAt, s.now)
    requires record.health.state != Archived
    ensures
      var t := Run(s, Failing(id));
      && t.row.Some? && t.row.value.retryAt == Some(s.now + Backoff(record.retryCount + 1, c.maxBackoff))
      && Backoff(record.retryCount + 1, c.maxBackoff) > 0.0
      && (forall i <- s.loops :: i != id ==> i in t.loops && t.loops[i] == s.loops[i])
      && t.now == s.now && t.creations == s.creations
  {
    var update := AttemptUpdate(c, record, Failure, s.now);
    PowerPositive(record.retryCount);
    var failed := Step(s, Act(id, AttemptEnds(Failure)));
    assert failed.row == s.row && failed.now == s.now && failed.loops == s.loops[id := Loop(c, Saving(record, update))];
    assert Failing(id)[1..] == [Act(id, Proceed)];
    RunOne(failed, Act(id, Proceed));
  }

  lemma CreateStep(s: System, id: nat, c: Config, record: ConnectionRecord)
    requires id in s.loops && s.loops[id] == Loop(c, Ready(record))
    ensures Run(s, [Act(id, Proceed)]).creations == s.creations + [Creation(record, s.row, s.now)]
  {
    RunOne(s, Act(id, Proceed));
  }

  lemma ElapseStep(s: System)
    ensures Run(s, [Elapse(2.0)]) == s.(now := s.now + 2.0)
  {
    RunOne(s, Elapse(2.0));
  }

  /** A loop that is about to create its client, whose lease has lapsed: as soon as any supervisor with a
      retry left can claim the row, there is a continuation in which the client comes too early. So a lapsed
      lease is never enough, and the check has to be made when the client is created. */
  lemma LapsedClaimsCanBeEarly(s: System, id: nat, other: nat, rival: Config)
    requires id in s.loops && s.loops[id].pc.Ready? && CanStart(s, other, rival)
    requires s.row.value.retryCount + 1 < rival.maxRetries && rival.maxBackoff > 0.0
    ensures
      var t := Run(s, Acquire(other, rival) + Failing(other) + [Act(id, Proceed)]);
      |t.creations| == |s.creations| + 1 && Early(t.creations[|s.creations|])
  {
    hide Step, Run, Acquire, Failing, Backoff;
    RunAppend(s, Acquire(other, rival), Failing(other));
    RunAppend(s, Acquire(other, rival) + Failing(other), [Act(id, Proceed)]);
    AcquireGetsReady(s, other, rival);
    var claimed := Run(s, Acquire(other, rival));
    FailingPersistsRetryTime(claimed, other, rival, Held(s.row.value, rival, s.now));
    CreateStep(Run(claimed, Failing(other)), id, s.loops[id].config, s.loops[id].pc.record);
  }

  /** What `_run` does not prevent: an orderly run in which a client is created one second before the retry
      time that the row then holds. */
  lemma ClientBeforeRetryTime(c0: Config, c1: Config)
    requires c0.lease == 1.0 && 1 <= c0.maxRetries <= 5
    requires c1.lease > 0.0 && 1 < c1.maxRetries <= 5 && c1.maxBackoff >= 1.0
    ensures OrderlyRun(Initial(5), Overtaken(c0, c1))
    ensures
      var s := Run(Initial(5), Overtaken(c0, c1));
      && |s.creations| == 1 && Early(s.creations[0]) && s.creations[0].at == 2.0
      && s.creations[0].row.value.retryAt == Some(3.0)
  {
    var s0 := Initial(5);
    ImportStep();
    hide Step, Run, Acquire, Failing;
    OvertakenAfterImport(Run(s0, [Import(1, 1)]), Imported(1, 1, 0.0), c0, c1);
    var rest := Acquire(0, c0) + [Elapse(2.0)] + Acquire(1, c1) + Failing(1) + [Act(0, Proceed)];
    assert Overtaken(c0, c1) == [Import(1, 1)] + rest;
    RunAppend(s0, [Import(1, 1)], rest);
    OvertakenIsOrderly(Run(s0, [Import(1, 1)]), c0, c1);
  }

  lemma OvertakenIsOrderly(s: System, c0: Config, c1: Config)
    ensures OrderlyRun(s, Acquire(0, c0) + [Elapse(2.0)] + Acquire(1, c1) + Failing(1) + [Act(0, Proceed)])
  {
    OnlySavesAreDisorderly(s, Acquire(0, c0) + [Elapse(2.0)] + Acquire(1, c1) + Failing(1) + [Act(0, Proceed)]);
  }

  lemma ImportStep()
    ensures
      var t := Run(Initial(5), [Import(1, 1)]);
      && t.row == Some(Imported(1, 1, 0.0)) && t.now == 0.0 && t.loops == map[] && t.creations == []
      && t.maxRetries == 5
    ensures OrderlyRun(Initial(5), [Import(1, 1)])
  {
    RunOne(Initial(5), Import(1, 1));
    ImportedRow(Initial(5));
    assert [Import(1, 1)][1..] == [];
  }

  lemma OvertakenAfterImport(s1: System, imported: ConnectionRecord, c0: Config, c1: Config)
    requires c0.lease == 1.0 && 1 <= c0.maxRetries <= 5
    requires c1.lease > 0.0 && 1 < c1.maxRetries <= 5 && c1.maxBackoff >= 1.0
    requires imported == Imported(1, 1, 0.0) && s1.row == Some(imported)
    requires s1.now == 0.0 && s1.loops == map[] && s1.creations == [] && s1.maxRetries == 5
    ensures
      var s := Run(s1, Acquire(0, c0) + [Elapse(2.0)] + Acquire(1, c1) + Failing(1) + [Act(0, Proceed)]);
      && |s.creations| == 1 && Early(s.creations[0]) && s.creations[0].at == 2.0
      && s.creations[0].row.value.retryAt == Some(3.0)
  {
    hide Step, Run, Acquire, Failing;
    RunAppend(s1, Acquire(0, c0), [Elapse(2.0)]);
    RunAppend(s1, Acquire(0, c0) + [Elapse(2.0)], Acquire(1, c1));
    RunAppend(s1, Acquire(0, c0) + [Elapse(2.0)] + Acquire(1, c1), Failing(1));
    RunAppend(s1, Acquire(0, c0) + [Elapse(2.0)] + Acquire(1, c1) + Failing(1), [Act(0, Proceed)]);
    AcquireGetsReady(s1, 0, c0);
    var s2 := Run(s1, Acquire(0, c0));
    var held := Held(imported, c0, 0.0);
    ElapseStep(s2);
    var s3 := Run(s2, [Elapse(2.0)]);
    AcquireGetsReady(s3, 1, c1);
    var s4 := Run(s3, Acquire(1, c1));
    FailingPersistsRetryTime(s4, 1, c1, Held(held, c1, 2.0));
    assert Backoff(1, c1.maxBackoff) == 1.0 by {
      assert Power(0) == 1;
    }
    CreateStep(Run(s4, Failing(1)), 0, c0, held);
  }
}
