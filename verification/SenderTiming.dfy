/** The lease arithmetic behind `_send_with_renewal`: a sender that wakes in time is never overtaken. */
module SenderTiming {
  import opened Common
  import opened DeliveryModel
  import opened DeliverySql

  /** The three durations checked by the gateway constructor. */
  datatype Timing = Timing(lease: real, deadline: real, renew: real)
  {
    predicate Accepted() {
      deadline > 0.0 && renew > 0.0 && !(renew * 2.0 >= lease) && !(deadline >= lease)
    }
  }

  function Min(a: real, b: real): (m: real)
    ensures m <= a && m <= b && (m == a || m == b)
  {
    if a < b then a else b
  }

  /** What another caller may do to the row: any call, except one that presents this sender's own
      owner id and fence. */
  predicate Rival(call: Call, owner: Uuid, fence: nat) {
    match call.op
    case Complete(_, f, _) => call.owner != owner || f != fence
    case MarkUncertain(_, f, _) => call.owner != owner || f != fence
    case Renew(_, f, _) => call.owner != owner || f != fence
    case Reserve(_, _) => true
    case AllowResend(_, _) => true
  }

  /** Reservations judge the lease by a clock reading taken before `until`. */
  predicate ReadsBefore(call: Call, until: Instant) {
    call.op.Reserve? ==> call.op.now <= until
  }

  /** One stay in `asyncio.wait`: how long until the sender runs again, whether the network call is
      done by then, and what other callers did to the table meanwhile. */
  datatype Nap = Nap(elapsed: real, done: bool, rivals: seq<Call>)

  function ApplyAll(table: Table, calls: seq<Call>): Table
    decreases |calls|
  {
    if calls == [] then table else ApplyAll(Apply(table, calls[0]).0, calls[1..])
  }

  // ---- the run of one sender ----

  /** One wake-up: the table when the nap began, the calls of others during it, the table found on
      waking at `at`, the reply to the renewal made then (none if the network call is done), and the
      table the renewal left. */
  datatype Wake = Wake(before: Table, rivals: seq<Call>, at: Instant, found: Table, renewal: Option<Reply>,
                       after: Table)

  /** How the loop is left: with the result of the network call, at its own deadline, on a refused
      renewal (the last two with the reply to marking the row), or not yet. */
  datatype Ending = Finished | TimedOut(marked: Reply) | Refused(marked: Reply) | StillWaiting

  datatype Trace = Trace(wakes: seq<Wake>, ending: Ending, table: Table, now: Instant)

  /** What is fixed for one send. */
  datatype Send = Send(cmd: Command, owner: Uuid, fence: nat, lease: real, deadline: Instant)
  {
    function Marking(): Call {
      Call(owner, lease, MarkUncertain(cmd, fence, Timeout))
    }

    function Renewing(now: Instant): Call {
      Call(owner, lease, Renew(cmd, fence, now))
    }
  }

  /** One turn of the loop that does not end at the deadline. */
  function Woken(d: Send, table: Table, now: Instant, nap: Nap): Wake {
    var at := now + nap.elapsed;
    var found := ApplyAll(table, nap.rivals);
    if nap.done then Wake(table, nap.rivals, at, found, None, found)
    else
      var (after, reply) := Apply(found, d.Renewing(at));
      Wake(table, nap.rivals, at, found, Some(reply), after)
  }

  /** Leaving by marking the row; the reply says whether it was still the sender's. */
  function Marked(d: Send, table: Table): (Table, Reply) {
    Apply(table, d.Marking())
  }

  function Prefixed(wakes: seq<Wake>, r: Trace): Trace {
    r.(wakes := wakes + r.wakes)
  }

  /** Everything the loop does on a schedule of naps, from `now` on. */
  function Traced(d: Send, table: Table, now: Instant, naps: seq<Nap>): Trace
    decreases |naps|
  {
    if d.deadline - now <= 0.0 then
      var (table', marked) := Marked(d, table);
      Trace([], TimedOut(marked), table', now)
    else if naps == [] then Trace([], StillWaiting, table, now)
    else
      var w := Woken(d, table, now, naps[0]);
      if w.renewal.None? then Trace([w], Finished, w.found, w.at)
      else if w.renewal != Some(Done(true)) then
        var (table', marked) := Marked(d, w.after);
        Trace([w], Refused(marked), table', w.at)
      else Prefixed([w], Traced(d, w.after, w.at, naps[1..]))
  }

  /** A turn that goes on is the first wake of the trace. */
  lemma TurnThenRest(d: Send, table: Table, now: Instant, nap: Nap, naps: seq<Nap>)
    requires now < d.deadline && Woken(d, table, now, nap).renewal == Some(Done(true))
    ensures
      var w := Woken(d, table, now, nap);
      Traced(d, table, now, [nap] + naps) == Prefixed([w], Traced(d, w.after, w.at, naps))
  {
    hide Woken, Marked;
    assert ([nap] + naps)[1..] == naps;
  }

  lemma PrefixedTwice(a: seq<Wake>, b: seq<Wake>, r: Trace)
    ensures Prefixed(a, Prefixed(b, r)) == Prefixed(a + b, r)
  {
  }

  /** The renewal loop of the source. */
  method SendWithRenewal(d: Send, table: Table, start: Instant, naps: seq<Nap>) returns (r: Trace)
    ensures r == Traced(d, table, start, naps)
  {
    var table', now := table, start;
    var wakes: seq<Wake> := [];
    var i := 0;
    assert naps[0..] == naps;
    while true
      invariant 0 <= i <= |naps|
      invariant Traced(d, table, start, naps) == Prefixed(wakes, Traced(d, table', now, naps[i..]))
      decreases |naps| - i
    {
      hide Apply, ApplyAll, Woken, Marked;
      var remaining := d.deadline - now;
      if remaining <= 0.0 {
        var (left, reply) := Marked(d, table');
        return Trace(wakes, TimedOut(reply), left, now);
      }
      if i == |naps| {
        return Trace(wakes, StillWaiting, table', now);
      }
      assert naps[i..][0] == naps[i] && naps[i..][1..] == naps[i + 1..];
      var w := Woken(d, table', now, naps[i]);
      if w.renewal.None? {
        return Trace(wakes + [w], Finished, w.found, w.at);
      }
      if w.renewal != Some(Done(true)) {
        var (left, reply) := Marked(d, w.after);
        return Trace(wakes + [w], Refused(reply), left, w.at);
      }
      assert naps[i..] == [naps[i]] + naps[i + 1..];
      TurnThenRest(d, table', now, naps[i], naps[i + 1..]);
      PrefixedTwice(wakes, [w], Traced(d, w.after, w.at, naps[i + 1..]));
      table', now, wakes, i := w.after, w.at, wakes + [w], i + 1;
    }
  }

  // ---- any schedule ----

  /** A wake-up on its own: after the nap and what rivals did in it, a call that is not done renews its row then. */
  predicate WakesFrom(d: Send, before: Table, from: Instant, nap: Nap, w: Wake) {
    && w.before == before && w.rivals == nap.rivals && w.at == from + nap.elapsed
    && w.found == ApplyAll(before, nap.rivals)
    && if nap.done then w.renewal == None && w.after == w.found
       else
         var (after, reply) := Apply(w.found, Call(d.owner, d.lease, Renew(d.cmd, d.fence, w.at)));
         w.after == after && w.renewal == Some(reply)
  }

  /** The table and the clock after the first `k` wake-ups. */
  function TableAt(table: Table, r: Trace, k: nat): Table
    requires k <= |r.wakes|
  {
    if k == 0 then table else r.wakes[k - 1].after
  }

  function ClockAt(now: Instant, r: Trace, k: nat): Instant
    requires k <= |r.wakes|
  {
    if k == 0 then now else r.wakes[k - 1].at
  }

  /** How the loop may end after `n` wake-ups: with the result when the network call is done; at the deadline and on a
      refused renewal by marking the row; or with the schedule. */
  predicate EndsRightly(d: Send, table: Table, now: Instant, naps: seq<Nap>, r: Trace) {
    var n := |r.wakes|;
    var marking := Apply(TableAt(table, r, n), Call(d.owner, d.lease, MarkUncertain(d.cmd, d.fence, Timeout)));
    && n <= |naps| && r.now == ClockAt(now, r, n)
    && match r.ending
       case Finished => n > 0 && naps[n - 1].done && r.table == TableAt(table, r, n)
       case Refused(marked) => n > 0 && r.wakes[n - 1].renewal == Some(Done(false)) && (r.table, marked) == marking
       case TimedOut(marked) => r.now >= d.deadline && (r.table, marked) == marking
       case StillWaiting => n == |naps| && r.now < d.deadline && r.table == TableAt(table, r, n)
  }

  /** The renewal of wake-up `k` was granted, or the loop ended there. */
  predicate RenewedAt(r: Trace, k: nat)
    requires k < |r.wakes|
  {
    r.wakes[k].renewal == Some(Done(true)) || (k == |r.wakes| - 1 && (r.ending.Finished? || r.ending.Refused?))
  }

  lemma RenewReplies(table: Table, owner: Uuid, lease: real, cmd: Command, fence: nat, now: Instant)
    ensures Apply(table, Call(owner, lease, Renew(cmd, fence, now))).1.Done?
  {
  }

  lemma RestEndsRightly(d: Send, table: Table, now: Instant, naps: seq<Nap>, w: Wake, rest: Trace)
    requires naps != [] && EndsRightly(d, w.after, w.at, naps[1..], rest)
    ensures EndsRightly(d, table, now, naps, Prefixed([w], rest))
  {
    hide Apply;
    var r := Prefixed([w], rest);
    assert TableAt(table, r, |r.wakes|) == TableAt(w.after, rest, |rest.wakes|);
    assert ClockAt(now, r, |r.wakes|) == ClockAt(w.at, rest, |rest.wakes|);
  }

  /** On every schedule, punctual or not: each wake-up follows from the one before it; the loop goes on exactly while
      the call is not done, its renewals are granted and its deadline is ahead; and it marks the row when it gives
      up. */
  lemma {:induction false} LoopEndsRightly(d: Send, table: Table, now: Instant, naps: seq<Nap>)
    ensures
      var r := Traced(d, table, now, naps);
      && EndsRightly(d, table, now, naps, r)
      && (forall k :: 0 <= k < |r.wakes| ==>
            && ClockAt(now, r, k) < d.deadline
            && WakesFrom(d, TableAt(table, r, k), ClockAt(now, r, k), naps[k], r.wakes[k])
            && RenewedAt(r, k))
    decreases |naps|
  {
    var r := Traced(d, table, now, naps);
    hide ApplyAll, Apply;
    if now < d.deadline && naps != [] {
      var w := Woken(d, table, now, naps[0]);
      assert WakesFrom(d, table, now, naps[0], w);
      RenewReplies(w.found, d.owner, d.lease, d.cmd, d.fence, w.at);
      if w.renewal == Some(Done(true)) {
        LoopEndsRightly(d, w.after, w.at, naps[1..]);
        var rest := Traced(d, w.after, w.at, naps[1..]);
        assert r == Prefixed([w], rest);
        RestEndsRightly(d, table, now, naps, w, rest);
        WakesShift(d, table, now, naps, w, rest);
      }
    }
  }

  lemma WakesShift(d: Send, table: Table, now: Instant, naps: seq<Nap>, w: Wake, rest: Trace)
    requires naps != [] && |rest.wakes| < |naps| && w.renewal == Some(Done(true)) && now < d.deadline
    requires WakesFrom(d, table, now, naps[0], w)
    requires forall k :: 0 <= k < |rest.wakes| ==>
               && ClockAt(w.at, rest, k) < d.deadline
               && WakesFrom(d, TableAt(w.after, rest, k), ClockAt(w.at, rest, k), naps[1..][k], rest.wakes[k])
               && RenewedAt(rest, k)
    ensures
      var r := Prefixed([w], rest);
      forall k :: 0 <= k < |r.wakes| ==>
        && ClockAt(now, r, k) < d.deadline
        && WakesFrom(d, TableAt(table, r, k), ClockAt(now, r, k), naps[k], r.wakes[k])
        && RenewedAt(r, k)
  {
    hide WakesFrom;
    var r := Prefixed([w], rest);
    forall k | 0 < k < |r.wakes|
      ensures ClockAt(now, r, k) < d.deadline
      ensures WakesFrom(d, TableAt(table, r, k), ClockAt(now, r, k), naps[k], r.wakes[k])
      ensures RenewedAt(r, k)
    {
      assert naps[1..][k - 1] == naps[k] && r.wakes[k] == rest.wakes[k - 1];
      assert TableAt(table, r, k) == TableAt(w.after, rest, k - 1) && ClockAt(now, r, k) == ClockAt(w.at, rest, k - 1);
      assert RenewedAt(rest, k - 1);
    }
  }

  // ---- punctual senders ----

  predicate Unexpired(table: Table, key: Key, owner: Uuid, fence: nat, expiry: Instant) {
    key in table && HeldBy(table[key], owner, fence) && table[key].leaseExpiresAt == Some(expiry)
  }

  /** A reply that neither grants the row, nor sees it as expired, nor completes or marks it. */
  predicate Harmless(key: Key, call: Call, reply: Reply) {
    call.op.cmd.key == key ==>
      || reply == Done(false)
      || (reply.Reserved? && reply.reservation.action == DoWait)
      || (reply.Reserved? && reply.reservation.action == DoCompleted && reply.reservation.result.None?)
  }

  /** A rival that reads the clock before the lease ends leaves a held row alone, and is told so. */
  lemma RivalLeavesRow(table: Table, key: Key, owner: Uuid, fence: nat, expiry: Instant, call: Call, until: Instant)
    requires Unexpired(table, key, owner, fence, expiry) && until < expiry
    requires Rival(call, owner, fence) && ReadsBefore(call, until)
    ensures key in Apply(table, call).0 && Apply(table, call).0[key] == table[key]
    ensures Harmless(key, call, Apply(table, call).1)
  {
  }

  /** So do any number of them: at each of their calls the row is held and unexpired as at first. */
  lemma {:induction false} RivalsLeaveRow(table: Table, key: Key, owner: Uuid, fence: nat, expiry: Instant,
                                          calls: seq<Call>, until: Instant, j: nat)
    requires Unexpired(table, key, owner, fence, expiry) && until < expiry && j <= |calls|
    requires forall k :: 0 <= k < |calls| ==> Rival(calls[k], owner, fence) && ReadsBefore(calls[k], until)
    ensures key in ApplyAll(table, calls[..j]) && ApplyAll(table, calls[..j])[key] == table[key]
    ensures j < |calls| ==> Harmless(key, calls[j], Apply(ApplyAll(table, calls[..j]), calls[j]).1)
    decreases j
  {
    if j == 0 {
      assert calls[..0] == [];
      if calls != [] {
        RivalLeavesRow(table, key, owner, fence, expiry, calls[0], until);
      }
    } else {
      RivalLeavesRow(table, key, owner, fence, expiry, calls[0], until);
      RivalsLeaveRow(Apply(table, calls[0]).0, key, owner, fence, expiry, calls[1..], until, j - 1);
      assert calls[..j][1..] == calls[1..][..j - 1];
    }
  }

  /** A nap is on time when the sender wakes at most one renewal period after its timeout, and every
      rival call happens during the nap. */
  predicate OnTime(d: Send, renew: real, nap: Nap, now: Instant) {
    && 0.0 < nap.elapsed <= Min(d.deadline - now, renew) + renew
    && forall k :: 0 <= k < |nap.rivals| ==>
         Rival(nap.rivals[k], d.owner, d.fence) && ReadsBefore(nap.rivals[k], now + nap.elapsed)
  }

  /** All naps of a schedule are on time, each starting when the one before it ended. */
  predicate Punctual(d: Send, renew: real, naps: seq<Nap>, now: Instant)
    decreases |naps|
  {
    naps != [] ==>
      (now < d.deadline ==> OnTime(d, renew, naps[0], now)) && Punctual(d, renew, naps[1..], now + naps[0].elapsed)
  }

  /** At every rival call of the nap, and at the wake-up, the row is the one the nap began with: held
      under the sender's fence, with an expiry after the wake-up. The rivals were told so, and a renewal
      was granted and wrote an expiry no later than `latest`. */
  predicate Safe(d: Send, w: Wake, latest: Instant) {
    var key := d.cmd.key;
    && key in w.before && HeldBy(w.before[key], d.owner, d.fence)
    && w.before[key].leaseExpiresAt.Some? && w.at < w.before[key].leaseExpiresAt.value
    && (forall j :: 0 <= j <= |w.rivals| ==>
          var seen := ApplyAll(w.before, w.rivals[..j]); key in seen && seen[key] == w.before[key])
    && (forall j :: 0 <= j < |w.rivals| ==>
          Harmless(key, w.rivals[j], Apply(ApplyAll(w.before, w.rivals[..j]), w.rivals[j]).1))
    && key in w.found && w.found[key] == w.before[key]
    && (w.renewal.Some? ==>
          && w.renewal == Some(Done(true))
          && key in w.after && w.after[key] == w.found[key].(leaseExpiresAt := Some(w.at + d.lease))
          && w.at + d.lease <= latest)
  }

  lemma NapIsSafe(t: Timing, d: Send, table: Table, now: Instant, nap: Nap)
    requires t.Accepted() && d.lease == t.lease && now < d.deadline && OnTime(d, t.renew, nap, now)
    requires Unexpired(table, d.cmd.key, d.owner, d.fence, now + t.lease)
    ensures
      var w := Woken(d, table, now, nap);
      && w.at == now + nap.elapsed <= d.deadline + t.renew
      && Safe(d, w, d.deadline + t.renew + t.lease)
      && Unexpired(w.found, d.cmd.key, d.owner, d.fence, now + t.lease)
      && (w.renewal.Some? ==>
            w.renewal == Some(Done(true)) && Unexpired(w.after, d.cmd.key, d.owner, d.fence, w.at + t.lease))
  {
    var until := now + nap.elapsed;
    forall j | 0 <= j <= |nap.rivals|
      ensures var seen := ApplyAll(table, nap.rivals[..j]);
              && d.cmd.key in seen && seen[d.cmd.key] == table[d.cmd.key]
              && (j < |nap.rivals| ==> Harmless(d.cmd.key, nap.rivals[j], Apply(seen, nap.rivals[j]).1))
    {
      RivalsLeaveRow(table, d.cmd.key, d.owner, d.fence, now + t.lease, nap.rivals, until, j);
    }
    assert nap.rivals[..|nap.rivals|] == nap.rivals;
  }

  lemma MarkingSucceeds(d: Send, table: Table, expiry: Instant)
    requires Unexpired(table, d.cmd.key, d.owner, d.fence, expiry)
    ensures
      var (table', reply) := Marked(d, table);
      reply == Done(true) && d.cmd.key in table' && table'[d.cmd.key].state == Uncertain &&
          table'[d.cmd.key].fence == d.fence
  {
  }

  /** How a run that began with a held row may end. */
  predicate EndsWell(t: Timing, d: Send, r: Trace) {
    && d.cmd.key in r.table && r.table[d.cmd.key].fence == d.fence
    && r.now <= d.deadline + t.renew
    && match r.ending
       case TimedOut(marked) => marked == Done(true) && r.now >= d.deadline && r.table[d.cmd.key].state == Uncertain
       case Refused(_) => false
       case Finished => r.wakes != [] && r.wakes[|r.wakes| - 1].at == r.now && r.wakes[|r.wakes| - 1].found == r.table
       case StillWaiting => r.now < d.deadline && Unexpired(r.table, d.cmd.key, d.owner, d.fence, r.now + t.lease)
  }

  lemma {:induction false} PunctualRunIsSafe(t: Timing, d: Send, table: Table, now: Instant, naps: seq<Nap>)
    requires t.Accepted() && d.lease == t.lease && now <= d.deadline + t.renew
    requires Unexpired(table, d.cmd.key, d.owner, d.fence, now + t.lease) && Punctual(d, t.renew, naps, now)
    ensures
      var r := Traced(d, table, now, naps);
      && (forall k :: 0 <= k < |r.wakes| ==> Safe(d, r.wakes[k], d.deadline + t.renew + t.lease))
      && EndsWell(t, d, r)
    decreases |naps|
  {
    hide Apply, ApplyAll, Safe, OnTime, Woken, Marked;
    if now >= d.deadline {
      MarkingSucceeds(d, table, now + t.lease);
    } else if naps != [] {
      NapIsSafe(t, d, table, now, naps[0]);
      var w := Woken(d, table, now, naps[0]);
      if w.renewal.Some? {
        PunctualRunIsSafe(t, d, w.after, w.at, naps[1..]);
      }
    }
  }

  /** A sender that starts at its grant and wakes on time is never overtaken: every renewal is granted;
      at every rival call and every wake-up its row is held and unexpired; it ends with the network
      call's result or by marking the row itself at or after its own deadline; and no expiry it writes
      is later than start + deadline + one renewal period of lateness + lease. */
  lemma PunctualSenderIsNeverOvertaken(t: Timing, table: Table, cmd: Command, owner: Uuid, fence: nat,
                                       start: Instant, naps: seq<Nap>)
    requires t.Accepted() && Unexpired(table, cmd.key, owner, fence, start + t.lease)
    requires Punctual(Send(cmd, owner, fence, t.lease, start + t.deadline), t.renew, naps, start)
    ensures
      var d := Send(cmd, owner, fence, t.lease, start + t.deadline);
      var r := Traced(d, table, start, naps);
      && (forall k :: 0 <= k < |r.wakes| ==> Safe(d, r.wakes[k], start + t.deadline + t.renew + t.lease))
      && EndsWell(t, d, r)
  {
    PunctualRunIsSafe(t, Send(cmd, owner, fence, t.lease, start + t.deadline), table, start, naps);
  }
}
