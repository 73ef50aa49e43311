/** The reconnect loop `_run` of one supervisor as it executes, over its repository object. */
module ReconnectLoop {
  import opened Common
  import opened ConnectionModel
  import opened ConnectionRepositories
  import opened ConnectionSystem

  /** What the outside world does in the k-th round of the loop: how long acquiring the proxy takes and
      whether it is available; how long each client operation takes that completes (the claim is checked
      after each one); how long the last one takes, how the attempt ends, and by how much the wait after
      it, or the wait for a retry time before it, is overslept. */
  datatype World = World(
    acquire: nat -> real,
    proxyUp: nat -> bool,
    operations: nat -> seq<real>,
    last: nat -> real,
    attempt: nat -> Attempt,
    late: nat -> real)
  {
    /** No duration is negative. */
    ghost predicate Sane() {
      && (forall k :: acquire(k) >= 0.0)
      && (forall k, i {:trigger operations(k)[i]} :: 0 <= i < |operations(k)| ==> operations(k)[i] >= 0.0)
      && (forall k :: last(k) >= 0.0)
      && (forall k :: late(k) >= 0.0)
    }
  }

  /** The sum of the delays before retries first+1 .. last. */
  function BackoffSum(first: nat, last: nat, maxBackoff: real): real
    requires first <= last
    decreases last
  {
    if first == last then 0.0 else BackoffSum(first, last - 1, maxBackoff) + Backoff(last, maxBackoff)
  }

  lemma {:induction false} BackoffSumNonNegative(first: nat, last: nat, maxBackoff: real)
    requires first <= last && maxBackoff > 0.0
    ensures BackoffSum(first, last, maxBackoff) >= 0.0
    decreases last
  {
    if first < last {
      BackoffSumNonNegative(first, last - 1, maxBackoff);
      PowerPositive(last - 1);
    }
  }

  lemma {:induction false} BackoffSumGrows(first: nat, middle: nat, last: nat, maxBackoff: real)
    requires first <= middle <= last && maxBackoff > 0.0
    ensures BackoffSum(first, middle, maxBackoff) <= BackoffSum(first, last, maxBackoff)
    decreases last
  {
    if middle < last {
      BackoffSumGrows(first, middle, last - 1, maxBackoff);
      PowerPositive(last - 1);
    }
  }

  lemma {:induction false} BackoffSumBelowPower(n: nat, maxBackoff: real)
    ensures BackoffSum(0, n, maxBackoff) <= (Power(n) - 1) as real
  {
    if n > 0 {
      BackoffSumBelowPower(n - 1, maxBackoff);
      assert Power(n) == Power(n - 1) + Power(n - 1);
      assert Backoff(n, maxBackoff) <= Power(n - 1) as real;
    }
  }

  lemma OneMore(n: nat, x: real)
    ensures (n + 1) as real * x == n as real * x + x
  {
  }

  lemma {:induction false} BackoffSumBelowCeilings(n: nat, maxBackoff: real)
    ensures BackoffSum(0, n, maxBackoff) <= n as real * maxBackoff
  {
    if n > 0 {
      BackoffSumBelowCeilings(n - 1, maxBackoff);
      OneMore(n - 1, maxBackoff);
      assert Backoff(n, maxBackoff) <= maxBackoff;
    }
  }

  /** Total backoff over n retries: at most 2^n - 1 seconds and at most n times the ceiling. */
  lemma BackoffSumBound(n: nat, maxBackoff: real)
    ensures BackoffSum(0, n, maxBackoff) <= (Power(n) - 1) as real
    ensures BackoffSum(0, n, maxBackoff) <= n as real * maxBackoff
  {
    BackoffSumBelowPower(n, maxBackoff);
    BackoffSumBelowCeilings(n, maxBackoff);
  }

  /** Starting later in the sequence of retries never costs more than the bound for all of them. */
  lemma {:induction false} BackoffSumSuffix(first: nat, last: nat, maxBackoff: real)
    requires first <= last && maxBackoff > 0.0
    ensures BackoffSum(first, last, maxBackoff) <= BackoffSum(0, last, maxBackoff)
    decreases last
  {
    if first == last {
      BackoffSumNonNegative(0, last, maxBackoff);
    } else {
      BackoffSumSuffix(first, last - 1, maxBackoff);
    }
  }

  // ---- what the loop does ----

  datatype WaitKind = ForRetryTime | ForBackoff | ForFlood

  /** A loop's history: the rows it writes, the attempts to create a client, with the row persisted at
      that instant, and its waits. */
  datatype Entry =
    | LeaseRenewed(at: Instant, row: ConnectionRecord)
    | Attempted(at: Instant, row: ConnectionRecord)
    | StateSaved(at: Instant, row: ConnectionRecord)
    | Waited(kind: WaitKind, delay: real, from: Instant, until: Instant)

  /** The row and the clock at the end, and what happened. */
  datatype Result = Result(row: ConnectionRecord, now: Instant, log: seq<Entry>, goesOn: bool)

  /** The ownership checks after the client operations: whether all pass, and when the last was made. */
  function ChecksPass(record: ConnectionRecord, owner: Uuid, now: Instant, operations: seq<real>): (bool, Instant)
    decreases |operations|
  {
    if operations == [] then (true, now)
    else
      var at := now + operations[0];
      if OwnsClaim(Some(record), record, owner, at) then ChecksPass(record, owner, at, operations[1..]) else (false, at)
  }

  function DelayAfter(c: Config, record: ConnectionRecord, attempt: Attempt): (WaitKind, real) {
    if attempt.Flood? then (ForFlood, attempt.retryAfter as real)
      else (ForBackoff, Backoff(record.retryCount + 1, c.maxBackoff))
  }

  /** An attempt that began at `at`: the outcome is persisted, and its delay waited out. */
  function AttemptOf(c: Config, record: ConnectionRecord, at: Instant, world: World, k: nat): Result {
    var (held, checked) := ChecksPass(record, c.owner, at, world.operations(k));
    if !held then Result(record, checked, [], false)
    else
      var end := checked + world.last(k);
      var u := AttemptUpdate(c, record, world.attempt(k), end);
      var (row, saved) := SqlSaveClaimed(Some(record), Updated(record, u, end), c.owner, u.release, end);
      if saved.None? then Result(record, end, [], false)
      else if u.state == Active || u.release then Result(saved.value, end, [StateSaved(end, saved.value)], false)
      else
        var (kind, delay) := DelayAfter(c, record, world.attempt(k));
        var woke := end + delay + world.late(k);
        Result(saved.value, woke, [StateSaved(end, saved.value), Waited(kind, delay, end, woke)],
               OwnsClaim(Some(saved.value), saved.value, c.owner, woke))
  }

  /** One round after the renewal: acquire the proxy, try to connect. */
  function RoundOf(c: Config, record: ConnectionRecord, now: Instant, world: World, k: nat): Result {
    var at := now + world.acquire(k);
    if !OwnsClaim(Some(record), record, c.owner, at) then Result(record, at, [], false)
    else if !world.proxyUp(k) then
      var (row, saved) := SqlSaveClaimed(Some(record),
          Updated(record, Outcome(Blocked, ProxyUnavailable, record), at), c.owner, true, at);
      if saved.None? then Result(record, at, [], false)
        else Result(saved.value, at, [StateSaved(at, saved.value)], false)
    else
      var r := AttemptOf(c, record, at, world, k);
      r.(log := [Attempted(at, record)] + r.log)
  }

  /** How many retries remain. */
  function Left(c: Config, record: ConnectionRecord): nat {
    if record.retryCount < c.maxRetries then c.maxRetries - record.retryCount else 0
  }

  lemma AttemptGoesOn(c: Config, record: ConnectionRecord, at: Instant, world: World, k: nat)
    ensures
      var r := AttemptOf(c, record, at, world, k);
      r.goesOn ==> r.row.retryCount == record.retryCount + 1 < c.maxRetries
  {
  }

  lemma RoundGoesOn(c: Config, record: ConnectionRecord, now: Instant, world: World, k: nat)
    ensures
      var r := RoundOf(c, record, now, world, k);
      r.goesOn ==> r.row.retryCount == record.retryCount + 1 < c.maxRetries
  {
    AttemptGoesOn(c, record, now + world.acquire(k), world, k);
  }

  /** The wait for a persisted retry time, when a loop takes over a row that has one. */
  function RetryWait(record: ConnectionRecord, now: Instant, late: real): Entry
    requires Future(record.retryAt, now)
  {
    Waited(ForRetryTime, record.retryAt.value - now, now, record.retryAt.value + late)
  }

  /** One turn of `while True`: renew the lease, then wait for the retry time or make a round. */
  function TurnOf(c: Config, record: ConnectionRecord, now: Instant, world: World, k: nat): Result {
    var renewed := SqlRenewLease(Some(record), record, c.owner, c.lease, now).1;
    if renewed.None? then Result(record, now, [], false)
    else
      var held := renewed.value;
      if Future(held.retryAt, now) then
        var wait := RetryWait(held, now, world.late(k));
        Result(held, wait.until, [LeaseRenewed(now, held), wait], OwnsClaim(Some(held), held, c.owner, wait.until))
      else
        var r := RoundOf(c, held, now, world, k);
        r.(log := [LeaseRenewed(now, held)] + r.log)
  }

  /** A turn that goes on brings the loop nearer to its end. */
  lemma TurnGoesOn(c: Config, record: ConnectionRecord, now: Instant, world: World, k: nat)
    requires world.Sane() && TurnOf(c, record, now, world, k).goesOn
    ensures
      var r := TurnOf(c, record, now, world, k);
      if Future(record.retryAt, now) then r.row.retryCount == record.retryCount && !Future(r.row.retryAt, r.now)
      else r.row.retryCount == record.retryCount + 1 < c.maxRetries
  {
    var held := SqlRenewLease(Some(record), record, c.owner, c.lease, now).1.value;
    if !Future(held.retryAt, now) {
      RoundGoesOn(c, held, now, world, k);
    }
  }

  function Prefixed(log: seq<Entry>, r: Result): Result {
    r.(log := log + r.log)
  }

  /** The whole loop, from a row that it holds. It ends by the measure (remaining retries, whether a
      retry time is pending). */
  function LoopOf(c: Config, record: ConnectionRecord, now: Instant, world: World, k: nat): Result
    requires world.Sane()
    decreases Left(c, record), if Future(record.retryAt, now) then 1 else 0
  {
    var turn := TurnOf(c, record, now, world, k);
    if !turn.goesOn then turn
    else
      TurnGoesOn(c, record, now, world, k);
      Prefixed(turn.log, LoopOf(c, turn.row, turn.now, world, NextRound(record, now, k)))
  }

  /** The loop is its first turn, and then the rest if the turn goes on. */
  lemma LoopIsTurns(c: Config, record: ConnectionRecord, now: Instant, world: World, k: nat, log: seq<Entry>)
    requires world.Sane()
    ensures
      var turn := TurnOf(c, record, now, world, k);
      Prefixed(log, LoopOf(c, record, now, world, k))
        == if turn.goesOn then Prefixed(log + turn.log, LoopOf(c, turn.row, turn.now, world, NextRound(record, now, k)))
           else Prefixed(log, turn)
  {
    hide TurnOf;
    var turn := TurnOf(c, record, now, world, k);
    if turn.goesOn {
      assert log + (turn.log + LoopOf(c, turn.row, turn.now, world, NextRound(record, now, k)).log)
        == (log + turn.log) + LoopOf(c, turn.row, turn.now, world, NextRound(record, now, k)).log;
    }
  }

  function NextRound(record: ConnectionRecord, now: Instant, k: nat): nat {
    if Future(record.retryAt, now) then k else k + 1
  }

  // ---- the loop as it executes ----

  method Round(repository: SqlAlchemyConnectionRepository, c: Config, record: ConnectionRecord, now: Instant,
               world: World, k: nat)
    returns (r: Result)
    requires record.accountId in repository.rows && repository.rows[record.accountId] == record
    modifies repository
    ensures r == RoundOf(c, record, now, world, k)
    ensures repository.rows == old(repository.rows)[record.accountId := r.row]
    ensures r.row.accountId == record.accountId
  {
    var at := now + world.acquire(k);
    assert repository.rows == repository.rows[record.accountId := record];
    if !OwnsClaim(Some(repository.rows[record.accountId]), record, c.owner, at) {
      return Result(record, at, [], false);
    }
    if !world.proxyUp(k) {
      var blocked := repository.SaveClaimed(Updated(record, Outcome(Blocked, ProxyUnavailable, record), at), c.owner,
          true, at);
      if blocked.None? {
        return Result(record, at, [], false);
      }
      return Result(blocked.value, at, [StateSaved(at, blocked.value)], false);
    }
    var log := [Attempted(at, record)];
    var (held, checked) := ChecksPass(record, c.owner, at, world.operations(k));
    if !held {
      return Result(record, checked, log, false);
    }
    var end := checked + world.last(k);
    var update := AttemptUpdate(c, record, world.attempt(k), end);
    var saved := repository.SaveClaimed(Updated(record, update, end), c.owner, update.release, end);
    if saved.None? {
      return Result(record, end, log, false);
    }
    log := log + [StateSaved(end, saved.value)];
    if update.state == Active || update.release {
      return Result(saved.value, end, log, false);
    }
    var (kind, delay) := DelayAfter(c, record, world.attempt(k));
    var woke := end + delay + world.late(k);
    log := log + [Waited(kind, delay, end, woke)];
    return Result(saved.value, woke, log,
        OwnsClaim(Some(repository.rows[record.accountId]), saved.value, c.owner, woke));
  }

  method Turn(repository: SqlAlchemyConnectionRepository, c: Config, record: ConnectionRecord, now: Instant,
              world: World, k: nat)
    returns (r: Result)
    requires record.accountId in repository.rows && repository.rows[record.accountId] == record
    modifies repository
    ensures r == TurnOf(c, record, now, world, k)
    ensures repository.rows == old(repository.rows)[record.accountId := r.row]
    ensures r.row.accountId == record.accountId
  {
    hide RoundOf, ClaimMatches;
    assert repository.rows == repository.rows[record.accountId := record];
    var renewed := repository.RenewLease(record, c.owner, c.lease, now);
    if renewed.None? {
      return Result(record, now, [], false);
    }
    var held := renewed.value;
    var log := [LeaseRenewed(now, held)];
    if Future(held.retryAt, now) {
      var wait := RetryWait(held, now, world.late(k));
      return Result(held, wait.until, log + [wait],
          OwnsClaim(Some(repository.rows[held.accountId]), held, c.owner, wait.until));
    }
    r := Round(repository, c, held, now, world, k);
    r := r.(log := log + r.log);
  }

  method RunLoop(repository: SqlAlchemyConnectionRepository, c: Config, claimed: ConnectionRecord, start: Instant,
                 world: World)
    returns (health: Health, now: Instant, log: seq<Entry>)
    requires world.Sane()
    requires claimed.accountId in repository.rows && repository.rows[claimed.accountId] == claimed
    modifies repository
    ensures
      var r := LoopOf(c, claimed, start, world, 0);
      && health == r.row.health && now == r.now && log == r.log
      && repository.rows == old(repository.rows)[claimed.accountId := r.row]
  {
    var account := claimed.accountId;
    var record, k := claimed, 0;
    now, log := start, [];
    assert repository.rows == repository.rows[account := claimed];
    while true
      invariant record.accountId == account && repository.rows == old(repository.rows)[account := record]
      invariant LoopOf(c, claimed, start, world, 0) == Prefixed(log, LoopOf(c, record, now, world, k))
      decreases Left(c, record), if Future(record.retryAt, now) then 1 else 0
    {
      hide TurnOf, LoopOf;
      LoopIsTurns(c, record, now, world, k, log);
      var r := Turn(repository, c, record, now, world, k);
      if !r.goesOn {
        return repository.rows[account].health, r.now, log + r.log;
      }
      TurnGoesOn(c, record, now, world, k);
      k := NextRound(record, now, k);
      record, now, log := r.row, r.now, log + r.log;
    }
  }

  // ---- what every history satisfies ----

  /** The history read from a row and an instant: the clock goes on; every attempt is made with the row
      persisted at that instant, and not before that row's retry time; every save raises the counter by
      at most one; every backoff is the one for the counter just persisted; and the given row and instant
      are those at the end. */
  predicate Follows(c: Config, row: ConnectionRecord, now: Instant, log: seq<Entry>, row': ConnectionRecord,
                    now': Instant)
    decreases |log|
  {
    if log == [] then row' == row && now <= now'
    else match log[0]
      case LeaseRenewed(at, r) =>
        && now <= at && r == row.(version := row.version + 1, leaseExpiresAt := Some(at + c.lease))
        && Follows(c, r, at, log[1..], row', now')
      case Attempted(at, r) =>
        && now <= at && r == row && !Future(row.retryAt, at)
        && Follows(c, row, at, log[1..], row', now')
      case StateSaved(at, r) =>
        && now <= at && r.accountId == row.accountId && r.sessionId == row.sessionId && r.version == row.version + 1
        && r.retryCount <= row.retryCount + 1
        && Follows(c, r, at, log[1..], row', now')
      case Waited(kind, delay, from, until) =>
        && now <= from && delay >= 0.0 && from + delay <= until && DelayOk(c, row, kind, delay, from)
        && Follows(c, row, until, log[1..], row', now')
  }

  predicate DelayOk(c: Config, row: ConnectionRecord, kind: WaitKind, delay: real, from: Instant) {
    match kind
    case ForRetryTime => row.retryAt == Some(from + delay)
    case ForBackoff => 1 <= row.retryCount < c.maxRetries && delay == Backoff(row.retryCount, c.maxBackoff)
    case ForFlood => delay <= c.maxRetryAfter as real
  }

  lemma {:induction false} FollowsOn(c: Config, row: ConnectionRecord, now: Instant, log: seq<Entry>,
                                     mid: ConnectionRecord, at: Instant,
                                     rest: seq<Entry>, row': ConnectionRecord, now': Instant)
    requires Follows(c, row, now, log, mid, at) && Follows(c, mid, at, rest, row', now')
    ensures Follows(c, row, now, log + rest, row', now')
    decreases |log|
  {
    if log == [] {
      assert log + rest == rest;
      EarlierStart(c, row, now, at, rest, row', now');
    } else {
      var entry := log[0];
      assert (log + rest)[1..] == log[1..] + rest;
      var r := match entry case LeaseRenewed(_, r) => r case StateSaved(_, r) => r case _ => row;
      var t := match entry case Waited(_, _, _, until) => until case _ => entry.at;
      FollowsOn(c, r, t, log[1..], mid, at, rest, row', now');
    }
  }

  lemma EarlierStart(c: Config, row: ConnectionRecord, now: Instant, later: Instant, log: seq<Entry>,
                     row': ConnectionRecord, now': Instant)
    requires now <= later && Follows(c, row, later, log, row', now')
    ensures Follows(c, row, now, log, row', now')
  {
  }

  function Attempts(log: seq<Entry>): nat {
    if log == [] then 0 else (if log[0].Attempted? then 1 else 0) + Attempts(log[1..])
  }

  /** How often the loop waited for a retry time that it found in the row. */
  function RetryWaits(log: seq<Entry>): nat {
    if log == [] then 0 else (if log[0].Waited? && log[0].kind == ForRetryTime then 1 else 0) + RetryWaits(log[1..])
  }

  /** The sum of the backoff delays. */
  function BackoffWaits(log: seq<Entry>): real {
    if log == [] then 0.0
    else (if log[0].Waited? && log[0].kind == ForBackoff then log[0].delay else 0.0) + BackoffWaits(log[1..])
  }

  lemma CountsFirst(a: Entry, rest: seq<Entry>)
    ensures Attempts([a] + rest) == (if a.Attempted? then 1 else 0) + Attempts(rest)
    ensures RetryWaits([a] + rest) == (if a.Waited? && a.kind == ForRetryTime then 1 else 0) + RetryWaits(rest)
    ensures BackoffWaits([a] + rest)
         == (if a.Waited? && a.kind == ForBackoff then a.delay else 0.0) + BackoffWaits(rest)
  {
    assert ([a] + rest)[1..] == rest;
  }

  lemma {:induction false} CountsAdd(a: seq<Entry>, b: seq<Entry>)
    ensures Attempts(a + b) == Attempts(a) + Attempts(b)
    ensures RetryWaits(a + b) == RetryWaits(a) + RetryWaits(b)
    ensures BackoffWaits(a + b) == BackoffWaits(a) + BackoffWaits(b)
    decreases |a|
  {
    if a == [] {
      assert a + b == b;
    } else {
      assert (a + b)[1..] == a[1..] + b;
      CountsAdd(a[1..], b);
    }
  }

  // ---- one turn ----

  lemma {:induction false} ChecksTakeTime(record: ConnectionRecord, owner: Uuid, now: Instant, operations: seq<real>)
    requires forall i :: 0 <= i < |operations| ==> operations[i] >= 0.0
    ensures ChecksPass(record, owner, now, operations).1 >= now
    decreases |operations|
  {
    if operations != [] {
      ChecksTakeTime(record, owner, now + operations[0], operations[1..]);
    }
  }

  /** An attempt's part of the history: no further attempt, at most one delay, over when the loop goes on. */
  lemma AttemptFollows(c: Config, record: ConnectionRecord, at: Instant, world: World, k: nat)
    requires world.Sane() && c.maxBackoff > 0.0
    ensures
      var r := AttemptOf(c, record, at, world, k);
      && Follows(c, record, at, r.log, r.row, r.now)
      && (r.goesOn ==> !Future(r.row.retryAt, r.now))
  {
    ChecksTakeTime(record, c.owner, at, world.operations(k));
    PowerPositive(record.retryCount);
    var r := AttemptOf(c, record, at, world, k);
    if |r.log| == 2 {
      assert r.log[1..] == [r.log[1]] && r.log[1..][1..] == [];
    }
  }

  lemma AttemptCounts(c: Config, record: ConnectionRecord, at: Instant, world: World, k: nat)
    requires c.maxBackoff > 0.0
    ensures
      var r := AttemptOf(c, record, at, world, k);
      && Attempts(r.log) == 0 && RetryWaits(r.log) == 0
      && 0.0 <= BackoffWaits(r.log)
      && (BackoffWaits(r.log) > 0.0 ==>
            record.retryCount + 1 < c.maxRetries && BackoffWaits(r.log) <= Backoff(record.retryCount + 1, c.maxBackoff))
  {
    PowerPositive(record.retryCount);
    var r := AttemptOf(c, record, at, world, k);
    if |r.log| == 2 {
      assert r.log == [r.log[0]] + ([r.log[1]] + []);
      CountsFirst(r.log[1], []);
      CountsFirst(r.log[0], [r.log[1]] + []);
    } else if |r.log| == 1 {
      assert r.log == [r.log[0]] + [];
      CountsFirst(r.log[0], []);
    }
  }

  /** A turn's part of the history. A turn that waits for a retry time makes no attempt; any other makes
      at most one, and only when no retry time is pending. */
  lemma TurnFollows(c: Config, record: ConnectionRecord, now: Instant, world: World, k: nat)
    requires world.Sane() && c.maxBackoff > 0.0
    ensures
      var r := TurnOf(c, record, now, world, k);
      && Follows(c, record, now, r.log, r.row, r.now)
      && (r.goesOn ==> !Future(r.row.retryAt, r.now))
  {
    var renewed := SqlRenewLease(Some(record), record, c.owner, c.lease, now).1;
    var r := TurnOf(c, record, now, world, k);
    if renewed.Some? {
      var held := renewed.value;
      assert r.log[0] == LeaseRenewed(now, held);
      if Future(held.retryAt, now) {
        assert r.log[1..] == [RetryWait(held, now, world.late(k))] && r.log[1..][1..] == [];
      } else {
        RoundFollows(c, held, now, world, k);
        assert r.log[1..] == RoundOf(c, held, now, world, k).log;
      }
    }
  }

  lemma RoundFollows(c: Config, record: ConnectionRecord, now: Instant, world: World, k: nat)
    requires world.Sane() && c.maxBackoff > 0.0 && !Future(record.retryAt, now)
    ensures
      var r := RoundOf(c, record, now, world, k);
      && Follows(c, record, now, r.log, r.row, r.now)
      && (r.goesOn ==> !Future(r.row.retryAt, r.now))
  {
    var at := now + world.acquire(k);
    var r := RoundOf(c, record, now, world, k);
    if OwnsClaim(Some(record), record, c.owner, at) {
      if world.proxyUp(k) {
        AttemptFollows(c, record, at, world, k);
        hide AttemptOf;
        assert r.log[1..] == AttemptOf(c, record, at, world, k).log;
      } else if r.log != [] {
        assert r.log[1..] == [];
      }
    }
  }

  lemma TurnCounts(c: Config, record: ConnectionRecord, now: Instant, world: World, k: nat)
    requires world.Sane() && c.maxBackoff > 0.0
    ensures
      var r := TurnOf(c, record, now, world, k);
      && (if Future(record.retryAt, now)
          then Attempts(r.log) == 0 && RetryWaits(r.log) <= 1 && BackoffWaits(r.log) == 0.0
          else && Attempts(r.log) <= 1 && RetryWaits(r.log) == 0 && 0.0 <= BackoffWaits(r.log)
               && (BackoffWaits(r.log) > 0.0 ==>
                     record.retryCount + 1 < c.maxRetries &&
                         BackoffWaits(r.log) <= Backoff(record.retryCount + 1, c.maxBackoff)))
  {
    var renewed := SqlRenewLease(Some(record), record, c.owner, c.lease, now).1;
    var r := TurnOf(c, record, now, world, k);
    if renewed.Some? {
      var held := renewed.value;
      if Future(held.retryAt, now) {
        assert r.log == [LeaseRenewed(now, held)] + ([RetryWait(held, now, world.late(k))] + []);
        CountsFirst(RetryWait(held, now, world.late(k)), []);
        CountsFirst(LeaseRenewed(now, held), [RetryWait(held, now, world.late(k))] + []);
      } else {
        RoundCounts(c, held, now, world, k);
        CountsFirst(LeaseRenewed(now, held), RoundOf(c, held, now, world, k).log);
      }
    }
  }

  lemma RoundCounts(c: Config, record: ConnectionRecord, now: Instant, world: World, k: nat)
    requires c.maxBackoff > 0.0
    ensures
      var r := RoundOf(c, record, now, world, k);
      && Attempts(r.log) <= 1 && RetryWaits(r.log) == 0 && 0.0 <= BackoffWaits(r.log)
      && (BackoffWaits(r.log) > 0.0 ==>
            record.retryCount + 1 < c.maxRetries && BackoffWaits(r.log) <= Backoff(record.retryCount + 1, c.maxBackoff))
  {
    var at := now + world.acquire(k);
    var r := RoundOf(c, record, now, world, k);
    if OwnsClaim(Some(record), record, c.owner, at) {
      if world.proxyUp(k) {
        AttemptCounts(c, record, at, world, k);
        hide AttemptOf;
        assert r.log[1..] == AttemptOf(c, record, at, world, k).log;
      } else if r.log != [] {
        assert r.log[1..] == [];
      }
    }
  }

  // ---- the whole loop ----

  /** Whatever the world does, the loop's history follows from the row it started with: in particular no
      attempt is made before the retry time persisted at that instant, and the last row and the last
      instant are those the loop leaves. */
  lemma {:induction false} LoopFollows(c: Config, record: ConnectionRecord, now: Instant, world: World, k: nat)
    requires world.Sane() && c.maxBackoff > 0.0
    ensures var r := LoopOf(c, record, now, world, k); Follows(c, record, now, r.log, r.row, r.now)
    decreases Left(c, record), if Future(record.retryAt, now) then 1 else 0
  {
    hide TurnOf, Follows;
    var turn := TurnOf(c, record, now, world, k);
    TurnFollows(c, record, now, world, k);
    if turn.goesOn {
      TurnGoesOn(c, record, now, world, k);
      var next := NextRound(record, now, k);
      LoopFollows(c, turn.row, turn.now, world, next);
      var rest := LoopOf(c, turn.row, turn.now, world, next);
      FollowsOn(c, record, now, turn.log, turn.row, turn.now, rest.log, rest.row, rest.now);
    }
  }

  /** What the backoffs still to come may add up to. */
  function BackoffLeft(c: Config, record: ConnectionRecord): real {
    if record.retryCount < c.maxRetries then BackoffSum(record.retryCount, c.maxRetries - 1, c.maxBackoff) else 0.0
  }

  lemma {:induction false} SumFirst(first: nat, last: nat, maxBackoff: real)
    requires first < last
    ensures BackoffSum(first, last, maxBackoff) == Backoff(first + 1, maxBackoff) +
        BackoffSum(first + 1, last, maxBackoff)
    decreases last
  {
    if first + 1 < last {
      SumFirst(first, last - 1, maxBackoff);
    }
  }

  /** A retry that is left pays for its own backoff and for what comes after it. */
  lemma BackoffLeftSplits(c: Config, record: ConnectionRecord)
    requires c.maxBackoff > 0.0
    ensures BackoffLeft(c, record) >= 0.0
    ensures record.retryCount + 1 < c.maxRetries ==>
      BackoffLeft(c, record) == Backoff(record.retryCount + 1, c.maxBackoff) +
          BackoffSum(record.retryCount + 1, c.maxRetries - 1, c.maxBackoff)
    ensures record.retryCount + 1 < c.maxRetries ==>
      BackoffSum(record.retryCount + 1, c.maxRetries - 1, c.maxBackoff) >= 0.0
  {
    if record.retryCount < c.maxRetries {
      BackoffSumNonNegative(record.retryCount, c.maxRetries - 1, c.maxBackoff);
    }
    if record.retryCount + 1 < c.maxRetries {
      SumFirst(record.retryCount, c.maxRetries - 1, c.maxBackoff);
      BackoffSumNonNegative(record.retryCount + 1, c.maxRetries - 1, c.maxBackoff);
    }
  }

  predicate Bounded(c: Config, record: ConnectionRecord, now: Instant, log: seq<Entry>) {
    && Attempts(log) <= (if Left(c, record) > 0 then Left(c, record) else 1)
    && RetryWaits(log) <= (if Future(record.retryAt, now) then 1 else 0)
    && BackoffWaits(log) <= BackoffLeft(c, record)
  }

  lemma OneTurnIsBounded(c: Config, record: ConnectionRecord, now: Instant, world: World, k: nat)
    requires world.Sane() && c.maxBackoff > 0.0
    ensures Bounded(c, record, now, TurnOf(c, record, now, world, k).log)
  {
    TurnCounts(c, record, now, world, k);
    BackoffLeftSplits(c, record);
  }

  lemma TurnAndRestAreBounded(c: Config, record: ConnectionRecord, now: Instant, world: World, k: nat, log: seq<Entry>)
    requires world.Sane() && c.maxBackoff > 0.0 && TurnOf(c, record, now, world, k).goesOn
    requires var turn := TurnOf(c, record, now, world, k); Bounded(c, turn.row, turn.now, log)
    ensures Bounded(c, record, now, TurnOf(c, record, now, world, k).log + log)
  {
    TurnCounts(c, record, now, world, k);
    TurnGoesOn(c, record, now, world, k);
    TurnFollows(c, record, now, world, k);
    BackoffLeftSplits(c, record);
    hide TurnOf, Follows, Backoff, BackoffSum;
    CountsAdd(TurnOf(c, record, now, world, k).log, log);
  }

  lemma {:induction false} LoopIsBounded(c: Config, record: ConnectionRecord, now: Instant, world: World, k: nat)
    requires world.Sane() && c.maxBackoff > 0.0
    ensures Bounded(c, record, now, LoopOf(c, record, now, world, k).log)
    decreases Left(c, record), if Future(record.retryAt, now) then 1 else 0
  {
    hide TurnOf, Bounded;
    OneTurnIsBounded(c, record, now, world, k);
    var turn := TurnOf(c, record, now, world, k);
    if turn.goesOn {
      TurnGoesOn(c, record, now, world, k);
      LoopIsBounded(c, turn.row, turn.now, world, NextRound(record, now, k));
      TurnAndRestAreBounded(c, record, now, world, k,
          LoopOf(c, turn.row, turn.now, world, NextRound(record, now, k)).log);
    }
  }

  lemma BackoffLeftBounded(c: Config, record: ConnectionRecord)
    requires c.maxBackoff > 0.0 && c.maxRetries >= 1
    ensures BackoffLeft(c, record) <= (Power(c.maxRetries - 1) - 1) as real
    ensures BackoffLeft(c, record) <= (c.maxRetries - 1) as real * c.maxBackoff
  {
    hide Backoff, Power, BackoffSum;
    BackoffSumBound(c.maxRetries - 1, c.maxBackoff);
    BackoffSumNonNegative(0, c.maxRetries - 1, c.maxBackoff);
    if record.retryCount < c.maxRetries {
      BackoffSumSuffix(record.retryCount, c.maxRetries - 1, c.maxBackoff);
    }
  }

  /** Over the whole loop, for m the maximum number of retries: at most the remaining number of attempts
      (one if none remain); at most one wait for a retry time found in the row, and only if it was pending
      at the start; and backoff of at most 2^(m-1) - 1 seconds and of at most m - 1 ceilings. */
  lemma LoopTotals(c: Config, record: ConnectionRecord, now: Instant, world: World)
    requires world.Sane() && c.maxBackoff > 0.0 && c.maxRetries >= 1
    ensures
      var log := LoopOf(c, record, now, world, 0).log;
      && Attempts(log) <= (if record.retryCount < c.maxRetries then c.maxRetries - record.retryCount else 1)
      && RetryWaits(log) <= (if Future(record.retryAt, now) then 1 else 0)
      && BackoffWaits(log) <= (Power(c.maxRetries - 1) - 1) as real
      && BackoffWaits(log) <= (c.maxRetries - 1) as real * c.maxBackoff
  {
    hide LoopOf, Attempts, RetryWaits, BackoffWaits, BackoffLeft, Power;
    LoopIsBounded(c, record, now, world, 0);
    BackoffLeftBounded(c, record);
  }

  /** The row and the clock after the entry. */
  function RowAfter(row: ConnectionRecord, entry: Entry): ConnectionRecord {
    match entry
    case LeaseRenewed(_, r) => r
    case StateSaved(_, r) => r
    case _ => row
  }

  /** The row persisted when the i-th entry was made. */
  function PersistedAt(row: ConnectionRecord, log: seq<Entry>, i: nat): ConnectionRecord
    requires i <= |log|
    decreases i
  {
    if i == 0 then row else PersistedAt(RowAfter(row, log[0]), log[1..], i - 1)
  }

  lemma {:induction false} FollowedAttempt(c: Config, row: ConnectionRecord, now: Instant, log: seq<Entry>,
                                           row': ConnectionRecord, now': Instant, i: nat)
    requires Follows(c, row, now, log, row', now') && i < |log| && log[i].Attempted?
    ensures now <= log[i].at && log[i].row == PersistedAt(row, log, i) && !Future(log[i].row.retryAt, log[i].at)
    decreases i
  {
    if i > 0 {
      var t := if log[0].Waited? then log[0].until else log[0].at;
      FollowedAttempt(c, RowAfter(row, log[0]), t, log[1..], row', now', i - 1);
    }
  }

  /** No attempt of the loop is made while the retry time in the persisted row is in the future. */
  lemma NoAttemptBeforeRetryTime(c: Config, record: ConnectionRecord, now: Instant, world: World, i: nat)
    requires world.Sane() && c.maxBackoff > 0.0
    requires var log := LoopOf(c, record, now, world, 0).log; i < |log| && log[i].Attempted?
    ensures
      var log := LoopOf(c, record, now, world, 0).log;
      !Future(PersistedAt(record, log, i).retryAt, log[i].at)
  {
    LoopFollows(c, record, now, world, 0);
    var r := LoopOf(c, record, now, world, 0);
    FollowedAttempt(c, record, now, r.log, r.row, r.now, i);
  }
}
