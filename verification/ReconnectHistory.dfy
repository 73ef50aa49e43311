/** What comes after what in the history of a reconnect loop: the next entry is determined by the entry before it, the
    row persisted by then and the outside world. */
module ReconnectHistory {
  import opened Common
  import opened ConnectionModel
  import opened ConnectionSystem
  import opened ReconnectLoop

  /** The row that a save writes over `before` at `at`: every field of it. */
  predicate Writes(before: ConnectionRecord, at: Instant, saved: ConnectionRecord, health: Health, retryCount: nat,
                   retryAt: Option<Instant>, leased: bool) {
    && saved.accountId == before.accountId && saved.sessionId == before.sessionId && saved.fence == before.fence
    && saved.version == before.version + 1
    && saved.health == health && health.lastSeenAt == Some(at)
    && saved.retryCount == retryCount && saved.retryAt == retryAt
    && saved.leaseOwner == (if leased then before.leaseOwner else None)
    && saved.leaseExpiresAt == (if leased then before.leaseExpiresAt else None)
  }

  /** An account that needs a login, is blocked or has used up its retries: no owner, no retry time. */
  predicate GivesUp(before: ConnectionRecord, at: Instant, saved: ConnectionRecord, state: HealthState,
                    error: HealthError, retryCount: nat) {
    Writes(before, at, saved, Health(state, Some(at), None, None, Some(error)), retryCount, None, false)
  }

  /** A failure with a retry left: still leased, one more on the counter, and a time before which not to try. */
  predicate Retries(before: ConnectionRecord, at: Instant, saved: ConnectionRecord, state: HealthState,
                    error: HealthError, delay: real) {
    Writes(before, at, saved, Health(state, Some(at), None, None, Some(error)), before.retryCount + 1,
           Some(at + delay), true)
  }

  /** What an attempt that ended so leaves in the row. */
  predicate Persisted(c: Config, before: ConnectionRecord, attempt: Attempt, at: Instant, saved: ConnectionRecord) {
    var last := before.retryCount + 1 >= c.maxRetries;
    match attempt
    case Authorized(proxyIp, latencyMs) =>
      Writes(before, at, saved, Health(Active, Some(at), proxyIp, latencyMs, None), 0, None, true)
    case Unauthorized => GivesUp(before, at, saved, ReauthRequired, AuthorizationLost, before.retryCount)
    case AccountGone => GivesUp(before, at, saved, Blocked, HealthError.AccountBlocked, before.retryCount)
    case Flood(retryAfter) =>
      if last || retryAfter > c.maxRetryAfter
      then GivesUp(before, at, saved, Blocked, RetryExhausted, before.retryCount + 1)
      else Retries(before, at, saved, Limited, RateLimited, retryAfter as real)
    case Failure =>
      if last then GivesUp(before, at, saved, Blocked, RetryExhausted, before.retryCount + 1)
      else Retries(before, at, saved, Quarantine, ConnectionFailed, Backoff(before.retryCount + 1, c.maxBackoff))
  }

  function Sum(durations: seq<real>): real {
    if durations == [] then 0.0 else durations[0] + Sum(durations[1..])
  }

  /** The loop's own lease on its row still runs. */
  predicate Holds(c: Config, row: ConnectionRecord, at: Instant) {
    row.leaseOwner == Some(c.owner) && Live(row.leaseExpiresAt, at)
  }

  /** The renewal that begins a turn at `at`: only version and expiry change. */
  predicate Renewal(c: Config, row: ConnectionRecord, at: Instant, next: Option<Entry>) {
    next == Some(LeaseRenewed(at, row.(version := row.version + 1, leaseExpiresAt := Some(at + c.lease))))
  }

  /** After the renewal that begins a turn, with `k` attempts made before: a pending retry time is waited for;
      otherwise, when the proxy has answered, the account is blocked for want of a proxy or the next attempt begins,
      unless the lease has run out by then. */
  predicate AfterRenewal(c: Config, world: World, k: nat, row: ConnectionRecord, at: Instant, next: Option<Entry>) {
    var answered := at + world.acquire(k);
    if Future(row.retryAt, at) then
      next == Some(Waited(ForRetryTime, row.retryAt.value - at, at, row.retryAt.value + world.late(k)))
    else if !Holds(c, row, answered) then next == None
    else if world.proxyUp(k) then next == Some(Attempted(answered, row))
    else next.Some? && next.value.StateSaved? && next.value.at == answered
         && GivesUp(row, answered, next.value.row, Blocked, ProxyUnavailable, row.retryCount)
  }

  /** After the start of attempt `k`: its outcome is persisted at its end, exactly if the lease outlives it. */
  predicate AfterAttempt(c: Config, world: World, k: nat, row: ConnectionRecord, at: Instant, next: Option<Entry>) {
    var end := at + Sum(world.operations(k)) + world.last(k);
    if !Holds(c, row, end) then next == None
    else next.Some? && next.value.StateSaved? && next.value.at == end
         && Persisted(c, row, world.attempt(k), end, next.value.row)
  }

  /** After a save, with attempt `k` the last one made: the loop waits for as long as it has just persisted, if a
      retry is left, and otherwise it is over. */
  predicate AfterSaved(c: Config, world: World, k: nat, row: ConnectionRecord, at: Instant, next: Option<Entry>) {
    if row.retryAt.None? then next == None
    else
      var kind := if row.health.state == Limited then ForFlood else ForBackoff;
      next == Some(Waited(kind, row.retryAt.value - at, at, row.retryAt.value + world.late(k)))
  }

  /** After a wait: the next turn, exactly if the lease outlives the wait. */
  predicate AfterWait(c: Config, row: ConnectionRecord, until: Instant, next: Option<Entry>) {
    if Holds(c, row, until) then Renewal(c, row, until, next) else next == None
  }

  /** `next` is what the loop does after `entry`; `row` is what is persisted by then, and `k` the number of attempts
      made by then. */
  predicate Succeeds(c: Config, world: World, k: nat, row: ConnectionRecord, entry: Entry, next: Option<Entry>) {
    match entry
    case LeaseRenewed(at, _) => AfterRenewal(c, world, k, row, at, next)
    case Attempted(at, _) => k >= 1 && AfterAttempt(c, world, k - 1, row, at, next)
    case StateSaved(at, _) =>
      (row.retryAt.Some? ==> k >= 1) && AfterSaved(c, world, if k >= 1 then k - 1 else 0, row, at, next)
    case Waited(_, _, _, until) => AfterWait(c, row, until, next)
  }

  function First(log: seq<Entry>): Option<Entry> {
    if log == [] then None else Some(log[0])
  }

  function AttemptsAfter(k: nat, entry: Entry): nat {
    if entry.Attempted? then k + 1 else k
  }

  /** Each entry of `rest` is what comes after the one before it; `entry` comes before the first. */
  predicate Obeys(c: Config, world: World, k: nat, row: ConnectionRecord, entry: Entry, rest: seq<Entry>)
    decreases |rest|
  {
    && Succeeds(c, world, k, row, entry, First(rest))
    && (rest != [] ==> Obeys(c, world, AttemptsAfter(k, rest[0]), RowAfter(row, rest[0]), rest[0], rest[1..]))
  }

  /** The loop begins with a renewal if it holds a row that is not in a terminal state, and does nothing otherwise. */
  predicate Begins(c: Config, world: World, k: nat, row: ConnectionRecord, now: Instant, log: seq<Entry>) {
    if Holds(c, row, now) && !Terminal(row.health.state)
    then && Renewal(c, row, now, First(log))
         && Obeys(c, world, k, log[0].row, log[0], log[1..])
    else log == []
  }

  lemma {:induction false} ChecksAreOne(record: ConnectionRecord, owner: Uuid, now: Instant, operations: seq<real>)
    requires forall i :: 0 <= i < |operations| ==> operations[i] >= 0.0
    requires OwnsClaim(Some(record), record, owner, now)
    ensures Sum(operations) >= 0.0
    ensures
      var (held, at) := ChecksPass(record, owner, now, operations);
      && (held <==> OwnsClaim(Some(record), record, owner, now + Sum(operations)))
      && (held ==> at == now + Sum(operations))
    decreases |operations|
  {
    if operations != [] {
      SumNonNegative(operations[1..]);
      if OwnsClaim(Some(record), record, owner, now + operations[0]) {
        ChecksAreOne(record, owner, now + operations[0], operations[1..]);
      }
    }
  }

  lemma {:induction false} SumNonNegative(operations: seq<real>)
    requires forall i :: 0 <= i < |operations| ==> operations[i] >= 0.0
    ensures Sum(operations) >= 0.0
    decreases |operations|
  {
    if operations != [] {
      SumNonNegative(operations[1..]);
    }
  }

  lemma OneEntry(a: Entry, rest: seq<Entry>)
    ensures First([a] + rest) == Some(a) && ([a] + rest)[1..] == rest
  {
  }

  /** The wait after a save, if there is one. */
  function WaitAfter(world: World, k: nat, saved: ConnectionRecord, at: Instant): Entry
    requires saved.retryAt.Some?
  {
    Waited(if saved.health.state == Limited then ForFlood else ForBackoff, saved.retryAt.value - at, at,
           saved.retryAt.value + world.late(k))
  }

  /** A round that saves: what it leaves, and whether the loop goes on. */
  predicate SavedResult(c: Config, world: World, k: nat, saved: ConnectionRecord, at: Instant, r: Result) {
    && r.row == saved
    && if saved.retryAt.None? then r.log == [StateSaved(at, saved)] && !r.goesOn
       else && r.log == [StateSaved(at, saved), WaitAfter(world, k, saved, at)]
            && r.now == saved.retryAt.value + world.late(k)
            && !Terminal(saved.health.state) && (r.goesOn <==> Holds(c, saved, r.now))
  }

  lemma AttemptResult(c: Config, record: ConnectionRecord, at: Instant, world: World, k: nat)
    requires world.Sane() && OwnsClaim(Some(record), record, c.owner, at) && !Terminal(record.health.state)
    ensures
      var r := AttemptOf(c, record, at, world, k);
      var end := at + Sum(world.operations(k)) + world.last(k);
      if !Holds(c, record, end) then r.log == [] && !r.goesOn
      else Persisted(c, record, world.attempt(k), end, r.row) && SavedResult(c, world, k, r.row, end, r)
  {
    ChecksAreOne(record, c.owner, at, world.operations(k));
  }

  /** A save and the wait after it, followed by the rest of the loop. */
  lemma SavedObeys(c: Config, world: World, k: nat, n: nat, saved: ConnectionRecord, at: Instant, r: Result,
                   rest: seq<Entry>)
    requires SavedResult(c, world, k, saved, at, r) && (saved.retryAt.Some? ==> n == k + 1)
    requires if r.goesOn then Begins(c, world, n, r.row, r.now, rest) else rest == []
    ensures (r.log + rest)[0] == StateSaved(at, saved)
    ensures Obeys(c, world, n, saved, StateSaved(at, saved), (r.log + rest)[1..])
  {
    if saved.retryAt.None? {
      assert (r.log + rest)[1..] == [];
    } else {
      var wait := WaitAfter(world, k, saved, at);
      assert (r.log + rest)[1..] == [wait] + rest;
      OneEntry(wait, rest);
      WaitObeys(c, world, n, saved, wait, rest);
    }
  }

  /** A wait followed by the rest of the loop. */
  lemma WaitObeys(c: Config, world: World, n: nat, row: ConnectionRecord, wait: Entry, rest: seq<Entry>)
    requires wait.Waited? && !Terminal(row.health.state)
    requires if Holds(c, row, wait.until) then Begins(c, world, n, row, wait.until, rest) else rest == []
    ensures Obeys(c, world, n, row, wait, rest)
  {
  }

  /** The attempt's part of the history, followed by whatever comes after its wait. */
  lemma AttemptObeys(c: Config, record: ConnectionRecord, at: Instant, world: World, k: nat, rest: seq<Entry>)
    requires world.Sane() && OwnsClaim(Some(record), record, c.owner, at) && !Terminal(record.health.state)
    requires
      var r := AttemptOf(c, record, at, world, k);
      if r.goesOn then Begins(c, world, k + 1, r.row, r.now, rest) else rest == []
    ensures Obeys(c, world, k + 1, record, Attempted(at, record), AttemptOf(c, record, at, world, k).log + rest)
  {
    hide AttemptOf, Persisted, Begins, SavedResult;
    AttemptResult(c, record, at, world, k);
    var r := AttemptOf(c, record, at, world, k);
    var end := at + Sum(world.operations(k)) + world.last(k);
    if Holds(c, record, end) {
      SavedObeys(c, world, k, k + 1, r.row, end, r, rest);
    } else {
      assert r.log + rest == [];
    }
  }

  /** A round's part of the history, after the renewal that began its turn. */
  lemma RoundObeys(c: Config, record: ConnectionRecord, now: Instant, world: World, k: nat, rest: seq<Entry>)
    requires world.Sane() && record.leaseOwner == Some(c.owner) && !Terminal(record.health.state)
    requires !Future(record.retryAt, now)
    requires
      var r := RoundOf(c, record, now, world, k);
      if r.goesOn then Begins(c, world, k + 1, r.row, r.now, rest) else rest == []
    ensures Obeys(c, world, k, record, LeaseRenewed(now, record), RoundOf(c, record, now, world, k).log + rest)
  {
    hide AttemptOf, Begins;
    var at := now + world.acquire(k);
    var r := RoundOf(c, record, now, world, k);
    if !Holds(c, record, at) {
      assert r.log + rest == [];
    } else if world.proxyUp(k) {
      var inner := AttemptOf(c, record, at, world, k);
      AttemptObeys(c, record, at, world, k, rest);
      assert r.log + rest == [Attempted(at, record)] + (inner.log + rest);
      OneEntry(Attempted(at, record), inner.log + rest);
    } else {
      assert SavedResult(c, world, k, r.row, at, r);
      SavedObeys(c, world, k, k, r.row, at, r, rest);
    }
  }

  lemma TurnObeys(c: Config, record: ConnectionRecord, now: Instant, world: World, k: nat, rest: seq<Entry>)
    requires world.Sane()
    requires
      var r := TurnOf(c, record, now, world, k);
      if r.goesOn then Begins(c, world, NextRound(record, now, k), r.row, r.now, rest) else rest == []
    ensures Begins(c, world, k, record, now, TurnOf(c, record, now, world, k).log + rest)
  {
    hide RoundOf, Obeys;
    var r := TurnOf(c, record, now, world, k);
    var renewed := SqlRenewLease(Some(record), record, c.owner, c.lease, now).1;
    if renewed.None? {
      assert r.log + rest == [];
    } else {
      var held := renewed.value;
      assert r.log + rest == [LeaseRenewed(now, held)] + (r.log[1..] + rest);
      OneEntry(LeaseRenewed(now, held), r.log[1..] + rest);
      if Future(held.retryAt, now) {
        var wait := RetryWait(held, now, world.late(k));
        assert r.log[1..] + rest == [wait] + rest;
        OneEntry(wait, rest);
        WaitObeys(c, world, k, held, wait, rest);
        RenewalThenWait(c, world, k, held, now, wait, rest);
      } else {
        RoundObeys(c, held, now, world, k, rest);
        assert r.log[1..] == RoundOf(c, held, now, world, k).log;
      }
    }
  }

  lemma RenewalThenWait(c: Config, world: World, k: nat, held: ConnectionRecord, now: Instant, wait: Entry,
                        rest: seq<Entry>)
    requires Future(held.retryAt, now) && wait == RetryWait(held, now, world.late(k))
    requires Obeys(c, world, k, held, wait, rest)
    ensures Obeys(c, world, k, held, LeaseRenewed(now, held), [wait] + rest)
  {
    OneEntry(wait, rest);
  }

  /** The whole history, in every world: it begins with the renewal of the claim, and each entry is what comes after
      the one before it. */
  lemma {:induction false} LoopObeys(c: Config, record: ConnectionRecord, now: Instant, world: World, k: nat)
    requires world.Sane()
    ensures Begins(c, world, k, record, now, LoopOf(c, record, now, world, k).log)
    decreases Left(c, record), if Future(record.retryAt, now) then 1 else 0
  {
    hide TurnOf, Begins;
    var turn := TurnOf(c, record, now, world, k);
    if turn.goesOn {
      TurnGoesOn(c, record, now, world, k);
      LoopObeys(c, turn.row, turn.now, world, NextRound(record, now, k));
      TurnObeys(c, record, now, world, k, LoopOf(c, turn.row, turn.now, world, NextRound(record, now, k)).log);
    } else {
      assert turn.log + [] == turn.log;
      TurnObeys(c, record, now, world, k, []);
    }
  }

  // ---- entry by entry ----

  lemma {:induction false} ObeysAt(c: Config, world: World, k: nat, row: ConnectionRecord, log: seq<Entry>, i: nat)
    requires i < |log| && Obeys(c, world, AttemptsAfter(k, log[0]), RowAfter(row, log[0]), log[0], log[1..])
    ensures Succeeds(c, world, k + Attempts(log[..i + 1]), PersistedAt(row, log, i + 1), log[i], First(log[i + 1..]))
    decreases i
  {
    assert log[..i + 1][1..] == log[1..][..i];
    if i == 0 {
      assert Attempts(log[..1]) == AttemptsAfter(0, log[0]);
      assert PersistedAt(row, log, 1) == PersistedAt(RowAfter(row, log[0]), log[1..], 0);
    } else {
      ObeysAt(c, world, AttemptsAfter(k, log[0]), RowAfter(row, log[0]), log[1..], i - 1);
      assert log[1..][i..] == log[i + 1..];
    }
  }

  /** Every entry of a loop's history determines the next: the renewal leads to the wait for a pending retry time, to
      the attempt or to the missing proxy; the attempt to the save of its own outcome; the save to the wait it
      announces; and the wait to the next turn. The loop stops early exactly where its lease has run out. */
  lemma HistoryIsDetermined(c: Config, record: ConnectionRecord, now: Instant, world: World, i: nat)
    requires world.Sane() && i < |LoopOf(c, record, now, world, 0).log|
    ensures
      var log := LoopOf(c, record, now, world, 0).log;
      && Renewal(c, record, now, First(log))
      && Succeeds(c, world, Attempts(log[..i + 1]), PersistedAt(record, log, i + 1), log[i], First(log[i + 1..]))
  {
    hide LoopOf, Obeys, Succeeds;
    LoopObeys(c, record, now, world, 0);
    ObeysAt(c, world, 0, record, LoopOf(c, record, now, world, 0).log, i);
  }

  /** A loop that holds a row in no terminal state begins; any other does nothing. */
  lemma LoopBeginsExactly(c: Config, record: ConnectionRecord, now: Instant, world: World)
    requires world.Sane()
    ensures LoopOf(c, record, now, world, 0).log != [] <==> Holds(c, record, now) && !Terminal(record.health.state)
  {
    hide LoopOf, Obeys;
    LoopObeys(c, record, now, world, 0);
  }

  /** What each save of the loop writes over the row persisted before it: the outcome of the attempt just made, or
      the missing proxy. */
  lemma SavesWriteTheOutcome(c: Config, record: ConnectionRecord, now: Instant, world: World, i: nat)
    requires world.Sane()
    requires var log := LoopOf(c, record, now, world, 0).log; i < |log| && log[i].StateSaved?
    ensures
      var log := LoopOf(c, record, now, world, 0).log;
      var before := PersistedAt(record, log, i);
      var k := Attempts(log[..i]);
      && i > 0
      && if log[i - 1].Attempted? then
           k >= 1 && Persisted(c, before, world.attempt(k - 1), log[i].at, log[i].row)
         else
           && log[i - 1].LeaseRenewed? && !world.proxyUp(k)
           && GivesUp(before, log[i].at, log[i].row, Blocked, ProxyUnavailable, before.retryCount)
  {
    hide LoopOf, Succeeds, GivesUp, Persisted, PersistedAt, Attempts;
    var log := LoopOf(c, record, now, world, 0).log;
    HistoryIsDetermined(c, record, now, world, if i > 0 then i - 1 else 0);
    if i > 0 {
      assert First(log[i..]) == Some(log[i]);
      OnlyRoundsSave(c, world, Attempts(log[..i]), PersistedAt(record, log, i), log[i - 1], log[i]);
    }
  }

  lemma OnlyRoundsSave(c: Config, world: World, k: nat, row: ConnectionRecord, entry: Entry, saved: Entry)
    requires Succeeds(c, world, k, row, entry, Some(saved)) && saved.StateSaved?
    ensures
      if entry.Attempted? then k >= 1 && Persisted(c, row, world.attempt(k - 1), saved.at, saved.row)
      else
        && entry.LeaseRenewed? && !world.proxyUp(k)
        && GivesUp(row, saved.at, saved.row, Blocked, ProxyUnavailable, row.retryCount)
  {
  }

  /** The delays before the retries: one second, doubled each time, and never above the ceiling. */
  lemma BackoffDoubles(retries: nat, maxBackoff: real)
    requires retries >= 1 && maxBackoff > 0.0
    ensures Backoff(1, maxBackoff) == if 1.0 <= maxBackoff then 1.0 else maxBackoff
    ensures
      var doubled := 2.0 * Backoff(retries, maxBackoff);
      Backoff(retries + 1, maxBackoff) == if doubled <= maxBackoff then doubled else maxBackoff
  {
    assert Power(retries) == 2 * Power(retries - 1);
  }
}
