/** Where an authorization gets to: from every reachable state, what each answer of the client makes of a live
    challenge. The safety theorems bound what may happen; these say what does. */
module ChallengeProgress {
  import opened Common
  import opened ChallengeStore
  import opened ChallengeInvariant
  import opened ChallengeFlows
  import opened ChallengeSafety

  lemma RunTwo(s: System, a: Event, b: Event)
    ensures Run(s, [a, b]) == Step(Step(s, a), b)
  {
    assert [a, b][1..] == [b] && [b][1..] == [];
    assert Run(s, [a, b]) == Run(Step(s, a), [b]) == Run(Step(Step(s, a), b), []);
  }

  lemma RunThree(s: System, a: Event, b: Event, c: Event)
    ensures Run(s, [a, b, c]) == Step(Step(Step(s, a), b), c)
  {
    assert [a, b, c][1..] == [b, c];
    RunTwo(Step(s, a), b, c);
  }

  lemma {:induction false} RunAppend(s: System, a: seq<Event>, b: seq<Event>)
    ensures Run(s, a + b) == Run(Run(s, a), b)
    decreases |a|
  {
    if a == [] {
      assert a + b == b;
    } else {
      assert (a + b)[1..] == a[1..] + b;
      RunAppend(Step(s, a[0]), a[1..], b);
    }
  }

  /** `c` is stored, and besides it exactly what was stored and live in `base` under other ids. */
  ghost predicate Holds(base: System, store: Store, c: Challenge) {
    && c in store.active
    && forall x :: x in store.active <==>
         x == c || (x in base.store.active && x.expiresAt > base.now && x.id != c.id)
  }

  /** Nothing is stored under the id, and besides exactly what was stored and live in `base`. */
  ghost predicate HoldsNot(base: System, store: Store, id: Uuid) {
    forall x :: x in store.active <==> x in base.store.active && x.expiresAt > base.now && x.id != id
  }

  predicate Shaped(s: System) {
    s.limits.Accepted() && Shape(s.limits, s.store, s.nextId)
  }

  /** What a reachable state says about a stored challenge. */
  lemma Reachable(limits: Limits, events: seq<Event>, c: Challenge)
    requires limits.Accepted() && c in Run(Initial(limits), events).store.active
    ensures
      var s := Run(Initial(limits), events);
      && Shaped(s) && s.limits == limits
      && (c.state != Failed && c.state != Expired ==> c.hasClient)
      && (c.state == Authorized ==> c.userId.Some?)
  {
    RunKeepsInv(Initial(limits), events);
    LimitsStay(Initial(limits), events);
    var s := Run(Initial(limits), events);
    assert ChallengeOk(s, c);
  }

  lemma {:induction false} LimitsStay(s: System, events: seq<Event>)
    ensures Run(s, events).limits == s.limits
    decreases |events|
  {
    if events != [] {
      LimitsStay(Step(s, events[0]), events[1..]);
    }
  }

  // ---- one step at a time ----

  lemma PrunedHolds(s: System, c: Challenge)
    requires Shaped(s) && c in s.store.active && c.expiresAt > s.now
    ensures
      var pruned := Prune(s.limits, s.store, s.now);
      && Shape(s.limits, pruned, s.nextId) && Holds(s, pruned, c) && Find(pruned.active, c.id) == Some(c)
  {
    PruneKeeps(s.limits, s.store, s.now, s.nextId);
    var pruned := Prune(s.limits, s.store, s.now);
    FindFinds(pruned.active, c);
    forall x | x in s.store.active && x != c
      ensures x.id != c.id
    {
      FindFinds(s.store.active, x);
      FindFinds(s.store.active, c);
    }
  }

  lemma ReplacedHolds(base: System, s: System, c: Challenge, d: Challenge)
    requires Shaped(s) && Holds(base, s.store, c) && d.id == c.id && d.expiresAt == c.expiresAt
    ensures
      var store := s.store.(active := Replace(s.store.active, d));
      Shape(s.limits, store, s.nextId) && Holds(base, store, d) && Find(store.active, d.id) == Some(d)
  {
    ReplaceKeeps(s.limits, s.store, c, d, s.nextId);
    FindFinds(Replace(s.store.active, d), d);
  }

  /** The flow has claimed `c` and works on it. */
  ghost predicate Claims(base: System, s: System, flow: nat, c: Challenge, pc: Pc) {
    && Shaped(s) && Holds(base, s.store, c.(state := Processing))
    && Find(s.store.active, c.id) == Some(c.(state := Processing))
    && s.limits == base.limits && s.accepted == base.accepted
    && s.nextId == base.nextId && s.creators == base.creators
    && s.flows == base.flows[flow := Flow(c.owner, pc)]
  }

  predicate NeedsOf(kind: Kind, c: Challenge) {
    match kind
    case Consume => c.state == Authorized && c.userId.Some? && c.hasClient
    case SubmitPassword => c.state == Needs2fa
    case _ => c.state == CodeSent
  }

  lemma BeginClaims(s: System, flow: nat, c: Challenge, kind: Kind, wait: real)
    requires Shaped(s) && c in s.store.active && flow !in s.flows && wait >= 0.0 && s.now + wait < c.expiresAt
    requires NeedsOf(kind, c)
    ensures
      var t := Step(s, Begin(flow, c.id, c.owner, kind, wait));
      && t.now == s.now + wait && t.consumed == s.consumed
      && Claims(s, t, flow, c, if kind.Confirm? then Finishing(c.id, if kind.sent then CodeSent else Failed)
                               else Calling(c.id, kind, c.userId))
  {
    hide Holds, Replace, Find, Shape, ClaimOf;
    ClaimSucceeds(s, c, Expected(kind), s.now + wait);
  }

  lemma ClaimSucceeds(s: System, c: Challenge, expected: State, later: Instant)
    requires Shaped(s) && c in s.store.active && s.now <= later < c.expiresAt && c.state == expected
    ensures
      var (store, claim) := ClaimOf(s.limits, s.store, c.id, c.owner, expected, s.now, later);
      && claim == Claimed(c.(state := Processing))
      && Shape(s.limits, store, s.nextId) && Holds(s, store, c.(state := Processing))
      && Find(store.active, c.id) == Some(c.(state := Processing))
  {
    PrunedHolds(s, c);
    var pruned := Prune(s.limits, s.store, s.now);
    hide Prune, Holds, Replace, Find, Shape;
    ReplacedHolds(s, s.(store := pruned), c, c.(state := Processing));
  }

  function FinishedAs(c: Challenge, state: State): Challenge {
    c.(state := state, hasClient := c.hasClient && state != Failed && state != Expired)
  }

  lemma EndFinishes(base: System, s: System, flow: nat, c: Challenge, state: State)
    requires Claims(base, s, flow, c, Finishing(c.id, state)) && s.now < c.expiresAt
    ensures
      var t := Step(s, End(flow));
      && Shaped(t)
      && Holds(base, t.store, FinishedAs(c, state))
      && t.flows == base.flows[flow := Flow(c.owner, Over)] && t.now == s.now
      && t.limits == s.limits && t.nextId == s.nextId && t.consumed == s.consumed && t.creators == s.creators
      && t.accepted == if state == Authorized
                       then s.accepted[c.id := Acceptance(s.now, c.expiresAt, UserOf(s.store, c.id))] else s.accepted
  {
    hide Holds, Replace, Find, Shape;
    ReplacedHolds(base, s, c.(state := Processing), FinishedAs(c, state));
  }

  /** What the answer to a sign-in makes of the challenge. */
  predicate SignInLeaves(kind: Kind, answer: Answer, c: Challenge, d: Challenge) {
    match answer
    case Identity(userId) =>
      if userId > 0 then d == c.(state := Authorized, userId := Some(userId)) else Refused(kind, c, d)
    case PasswordRequired =>
      if kind.SubmitCode? then d == c.(state := Needs2fa) else Refused(kind, c, d)
    case QrExpired =>
      if kind.CompleteQr? then d == c.(state := Expired, hasClient := false) else Refused(kind, c, d)
    case _ => Refused(kind, c, d)
  }

  /** A QR code may be tried again; a wrong code or password may not, and the client is given up. */
  predicate Refused(kind: Kind, c: Challenge, d: Challenge) {
    d == if kind.CompleteQr? then c else c.(state := Failed, hasClient := false)
  }

  predicate SigningIn(kind: Kind) {
    kind.SubmitCode? || kind.SubmitPassword? || kind.CompleteQr?
  }

  function CallOf(flow: nat, c: Challenge, kind: Kind, wait: real, answer: Answer): seq<Event> {
    [Begin(flow, c.id, c.owner, kind, wait), Reply(flow, answer), End(flow)]
  }

  /** The client has answered a sign-in; the challenge holds the identity if there is one. */
  lemma ReplyToSignIn(base: System, s: System, flow: nat, c: Challenge, kind: Kind, answer: Answer)
    requires Claims(base, s, flow, c, Calling(c.id, kind, c.userId))
    requires SigningIn(kind) && NeedsOf(kind, c) && c.hasClient
    ensures
      var t := Step(s, Reply(flow, answer));
      var signed := answer.Identity? && answer.userId > 0;
      var d := if signed then c.(userId := Some(answer.userId)) else c;
      && t.now == s.now && t.consumed == s.consumed && flow in t.flows && t.flows[flow].pc.Finishing?
      && Claims(base, t, flow, d, t.flows[flow].pc)
      && t.flows[flow].pc.id == c.id
      && SignInLeaves(kind, answer, c, FinishedAs(d, t.flows[flow].pc.state))
      && (t.flows[flow].pc.state == Authorized <==> signed)
  {
    hide Holds, Replace, Find, Shape;
    if answer.Identity? && answer.userId > 0 {
      ReplacedHolds(base, s, c.(state := Processing), c.(state := Processing, userId := Some(answer.userId)));
    }
  }

  /** There is one thing that a challenge can become. */
  lemma OneOutcome(kind: Kind, answer: Answer, c: Challenge, d: Challenge, e: Challenge)
    requires SignInLeaves(kind, answer, c, d) && SignInLeaves(kind, answer, c, e)
    ensures d == e && d.id == c.id && d.owner == c.owner && d.expiresAt == c.expiresAt
  {
  }

  lemma SignInSteps(s: System, flow: nat, c: Challenge, kind: Kind, wait: real, answer: Answer, d: Challenge)
    requires Shaped(s) && SigningIn(kind) && wait >= 0.0 && c.hasClient
    requires c in s.store.active && flow !in s.flows && s.now + wait < c.expiresAt && NeedsOf(kind, c)
    requires SignInLeaves(kind, answer, c, d)
    ensures
      var t := Step(Step(Step(s, Begin(flow, c.id, c.owner, kind, wait)), Reply(flow, answer)), End(flow));
      && Shaped(t) && Holds(s, t.store, d) && t.now == s.now + wait && t.limits == s.limits && t.nextId == s.nextId
      && t.flows == s.flows[flow := Flow(c.owner, Over)] && t.consumed == s.consumed && t.creators == s.creators
      && t.accepted == (if answer.Identity? && answer.userId > 0
                        then s.accepted[c.id := Acceptance(s.now + wait, c.expiresAt, answer.userId)] else s.accepted)
  {
    hide Holds, Step, Shape, SignInLeaves, NeedsOf;
    BeginClaims(s, flow, c, kind, wait);
    var s1 := Step(s, Begin(flow, c.id, c.owner, kind, wait));
    ReplyToSignIn(s, s1, flow, c, kind, answer);
    var s2 := Step(s1, Reply(flow, answer));
    var e := if answer.Identity? && answer.userId > 0 then c.(userId := Some(answer.userId)) else c;
    EndFinishes(s, s2, flow, e, s2.flows[flow].pc.state);
    OneOutcome(kind, answer, c, d, FinishedAs(e, s2.flows[flow].pc.state));
  }

  /** A sign-in or a QR wait on a live challenge by its owner, undisturbed: afterwards the challenge is what the answer
      makes of it; an identity is recorded as accepted; and the other live challenges are as they were. */
  lemma SignInCall(limits: Limits, events: seq<Event>, flow: nat, c: Challenge, kind: Kind, wait: real, answer: Answer,
                   d: Challenge)
    requires limits.Accepted() && SigningIn(kind) && wait >= 0.0
    requires var s := Run(Initial(limits), events);
             c in s.store.active && flow !in s.flows && s.now + wait < c.expiresAt && NeedsOf(kind, c)
    requires SignInLeaves(kind, answer, c, d)
    ensures
      var s := Run(Initial(limits), events);
      var t := Run(s, CallOf(flow, c, kind, wait, answer));
      && Holds(s, t.store, d) && t.now == s.now + wait
      && t.flows == s.flows[flow := Flow(c.owner, Over)] && t.consumed == s.consumed && t.creators == s.creators
      && t.accepted == (if answer.Identity? && answer.userId > 0
                        then s.accepted[c.id := Acceptance(s.now + wait, c.expiresAt, answer.userId)] else s.accepted)
  {
    hide Holds, Run, Step, Shaped, SignInLeaves, Initial;
    var s := Run(Initial(limits), events);
    Reachable(limits, events, c);
    RunThree(s, Begin(flow, c.id, c.owner, kind, wait), Reply(flow, answer), End(flow));
    SignInSteps(s, flow, c, kind, wait, answer, d);
  }

  /** The holder of an authorized challenge gets one export: a session that is not empty is handed out for the accepted
      identity; and whatever the client answers, the challenge fails and its client is given up. */
  lemma ConsumeSteps(s: System, flow: nat, c: Challenge, wait: real, answer: Answer)
    requires Shaped(s) && wait >= 0.0 && c in s.store.active && flow !in s.flows && s.now + wait < c.expiresAt
    requires NeedsOf(Consume, c)
    ensures
      var t := Step(Step(Step(s, Begin(flow, c.id, c.owner, Consume, wait)), Reply(flow, answer)), End(flow));
      && Holds(s, t.store, c.(state := Failed, hasClient := false))
      && t.flows == s.flows[flow := Flow(c.owner, Over)] && t.accepted == s.accepted && t.now == s.now + wait
      && t.consumed == if answer.Session? && answer.payload != []
                       then s.consumed + [Consumption(c.id, c.owner, c.userId.value)] else s.consumed
  {
    hide Holds, Shape, Replace, Find, ClaimOf, Finish;
    BeginClaims(s, flow, c, Consume, wait);
    var s1 := Step(s, Begin(flow, c.id, c.owner, Consume, wait));
    var s2 := Step(s1, Reply(flow, answer));
    ConsumeReplies(s, s1, flow, c, answer);
    EndFinishes(s, s2, flow, c, Failed);
  }

  lemma ConsumeReplies(base: System, s: System, flow: nat, c: Challenge, answer: Answer)
    requires Claims(base, s, flow, c, Calling(c.id, Consume, c.userId)) && c.userId.Some?
    ensures
      var t := Step(s, Reply(flow, answer));
      && Claims(base, t, flow, c, Finishing(c.id, Failed)) && t.now == s.now
      && t.consumed == if answer.Session? && answer.payload != []
                       then s.consumed + [Consumption(c.id, c.owner, c.userId.value)] else s.consumed
  {
    hide Holds, Shape, Find;
  }

  lemma ConsumeCall(limits: Limits, events: seq<Event>, flow: nat, c: Challenge, wait: real, answer: Answer)
    requires limits.Accepted() && wait >= 0.0
    requires var s := Run(Initial(limits), events);
             c in s.store.active && flow !in s.flows && s.now + wait < c.expiresAt && c.state == Authorized
    ensures
      var s := Run(Initial(limits), events);
      var t := Run(s, CallOf(flow, c, Consume, wait, answer));
      && Holds(s, t.store, c.(state := Failed, hasClient := false))
      && t.flows == s.flows[flow := Flow(c.owner, Over)] && t.accepted == s.accepted && t.now == s.now + wait
      && c.userId.Some?
      && t.consumed == if answer.Session? && answer.payload != []
                       then s.consumed + [Consumption(c.id, c.owner, c.userId.value)] else s.consumed
  {
    hide Holds, Run, Step, Shaped, Initial;
    var s := Run(Initial(limits), events);
    Reachable(limits, events, c);
    RunThree(s, Begin(flow, c.id, c.owner, Consume, wait), Reply(flow, answer), End(flow));
    ConsumeSteps(s, flow, c, wait, answer);
  }

  /** The way through two-factor authentication, for any waits within the deadline: the code leaves the challenge
      waiting for its password, the password authorizes it for the user, and the export hands the user out once. */
  lemma TwoFactorSignIn(limits: Limits, events: seq<Event>, flows: (nat, nat, nat), c: Challenge,
                        waits: (real, real, real), userId: nat, payload: string)
    requires limits.Accepted() && waits.0 >= 0.0 && waits.1 >= 0.0 && waits.2 >= 0.0 && userId > 0 && payload != []
    requires flows.0 != flows.1 && flows.0 != flows.2 && flows.1 != flows.2
    requires var s := Run(Initial(limits), events);
             && c in s.store.active && c.state == CodeSent && s.now + waits.0 + waits.1 + waits.2 < c.expiresAt
             && flows.0 !in s.flows && flows.1 !in s.flows && flows.2 !in s.flows
    ensures
      var s := Run(Initial(limits), events);
      var asked := c.(state := Needs2fa);
      var signed := c.(state := Authorized, userId := Some(userId));
      var s1 := Run(s, CallOf(flows.0, c, SubmitCode, waits.0, PasswordRequired));
      var s2 := Run(s1, CallOf(flows.1, asked, SubmitPassword, waits.1, Identity(userId)));
      var s3 := Run(s2, CallOf(flows.2, signed, Consume, waits.2, Session(payload)));
      && asked in s1.store.active && signed in s2.store.active
      && signed.(state := Failed, hasClient := false) in s3.store.active
      && s1.consumed == s2.consumed == s.consumed && s3.consumed == s.consumed + [Consumption(c.id, c.owner, userId)]
  {
    hide Run, Step, Initial, CallOf;
    var asked := c.(state := Needs2fa);
    var signed := c.(state := Authorized, userId := Some(userId));
    var e1 := CallOf(flows.0, c, SubmitCode, waits.0, PasswordRequired);
    SignInCall(limits, events, flows.0, c, SubmitCode, waits.0, PasswordRequired, asked);
    RunAppend(Initial(limits), events, e1);
    var e2 := CallOf(flows.1, asked, SubmitPassword, waits.1, Identity(userId));
    SignInCall(limits, events + e1, flows.1, asked, SubmitPassword, waits.1, Identity(userId), signed);
    RunAppend(Initial(limits), events + e1, e2);
    ConsumeCall(limits, events + e1 + e2, flows.2, signed, waits.2, Session(payload));
  }

  /** The end of `start`: the code was sent, or the challenge fails. */
  lemma ConfirmCall(limits: Limits, events: seq<Event>, flow: nat, c: Challenge, sent: bool, wait: real)
    requires limits.Accepted() && wait >= 0.0
    requires var s := Run(Initial(limits), events);
             c in s.store.active && flow !in s.flows && s.now + wait < c.expiresAt && c.state == CodeSent
    ensures
      var s := Run(Initial(limits), events);
      var t := Run(s, [Begin(flow, c.id, c.owner, Confirm(sent), wait), End(flow)]);
      && Holds(s, t.store, if sent then c else c.(state := Failed, hasClient := false))
      && t.flows == s.flows[flow := Flow(c.owner, Over)] && t.accepted == s.accepted && t.consumed == s.consumed
  {
    hide Holds, Run, Step, Shape, Initial;
    var s := Run(Initial(limits), events);
    Reachable(limits, events, c);
    RunTwo(s, Begin(flow, c.id, c.owner, Confirm(sent), wait), End(flow));
    BeginClaims(s, flow, c, Confirm(sent), wait);
    var s1 := Step(s, Begin(flow, c.id, c.owner, Confirm(sent), wait));
    EndFinishes(s, s1, flow, c, if sent then CodeSent else Failed);
  }

  // ---- what is refused ----

  lemma PrunedHoldsNot(s: System, c: Challenge)
    requires Shaped(s) && c in s.store.active && c.expiresAt <= s.now
    ensures
      var pruned := Prune(s.limits, s.store, s.now);
      HoldsNot(s, pruned, c.id) && Find(pruned.active, c.id).None?
  {
    PruneKeeps(s.limits, s.store, s.now, s.nextId);
    var pruned := Prune(s.limits, s.store, s.now);
    forall x | x in s.store.active && x.id == c.id
      ensures x == c
    {
      FindFinds(s.store.active, x);
      FindFinds(s.store.active, c);
    }
  }

  lemma DroppedHoldsNot(base: System, s: System, c: Challenge)
    requires Shaped(s) && Holds(base, s.store, c)
    ensures
      var store := Drop(s.limits, s.store, c);
      && HoldsNot(base, store, c.id) && Tomb(c.id, c.expiresAt, c.owner) in store.expired
  {
    DropKeeps(s.limits, s.store, c, s.nextId);
    var all := s.store.expired + [Tomb(c.id, c.expiresAt, c.owner)];
    var store := Drop(s.limits, s.store, c);
    assert store.expired[|store.expired| - 1] == all[|all| - 1];
  }

  lemma ClaimFails(s: System, c: Challenge, owner: Uuid, expected: State, later: Instant)
    requires Shaped(s) && c in s.store.active && s.now <= later
    requires owner != c.owner || c.expiresAt <= later || c.state != expected
    ensures
      var (store, claim) := ClaimOf(s.limits, s.store, c.id, owner, expected, s.now, later);
      && claim.Denied?
      && if c.expiresAt <= s.now || (owner == c.owner && c.expiresAt <= later)
         then HoldsNot(s, store, c.id) else Holds(s, store, c)
  {
    hide Prune, Find, Holds, HoldsNot, Shape;
    if c.expiresAt <= s.now {
      PrunedHoldsNot(s, c);
    } else {
      PrunedHolds(s, c);
      var pruned := Prune(s.limits, s.store, s.now);
      DroppedHoldsNot(s, s.(store := pruned), c);
    }
  }

  /** A claim by anybody but the owner, after the deadline, or in another state than the call expects, starts nothing:
      the challenge stays as it is, or is dropped if its deadline has passed. */
  lemma RefusedClaimsChangeNothing(limits: Limits, events: seq<Event>, flow: nat, c: Challenge, owner: Uuid, kind: Kind,
                                   wait: real)
    requires limits.Accepted() && wait >= 0.0
    requires var s := Run(Initial(limits), events); c in s.store.active && flow !in s.flows
    requires
      var s := Run(Initial(limits), events);
      var expected := if kind.SubmitPassword? then Needs2fa else if kind.Consume? then Authorized else CodeSent;
      owner != c.owner || c.expiresAt <= s.now + wait || c.state != expected
    ensures
      var s := Run(Initial(limits), events);
      var t := Step(s, Begin(flow, c.id, owner, kind, wait));
      && t.flows == s.flows[flow := Flow(owner, Over)] && t.accepted == s.accepted && t.consumed == s.consumed
      && if c.expiresAt <= s.now || (owner == c.owner && c.expiresAt <= s.now + wait)
         then HoldsNot(s, t.store, c.id) else Holds(s, t.store, c)
  {
    hide Holds, HoldsNot, Run, Shape, Initial, ClaimOf;
    var s := Run(Initial(limits), events);
    Reachable(limits, events, c);
    ClaimFails(s, c, owner, Expected(kind), s.now + wait);
  }

  /** An answer that comes after the deadline is lost: whatever it is, nothing is accepted, and the challenge is
      remembered as expired. */
  lemma LateAnswerIsLost(limits: Limits, events: seq<Event>, flow: nat, c: Challenge, kind: Kind, wait: real,
                         late: real, answer: Answer)
    requires limits.Accepted() && SigningIn(kind) && wait >= 0.0 && late >= 0.0
    requires var s := Run(Initial(limits), events);
             && c in s.store.active && flow !in s.flows && NeedsOf(kind, c)
             && s.now + wait < c.expiresAt <= s.now + wait + late
    ensures
      var s := Run(Initial(limits), events);
      var t := Run(Run(s, [Begin(flow, c.id, c.owner, kind, wait), Elapse(late)]), [Reply(flow, answer), End(flow)]);
      && HoldsNot(s, t.store, c.id) && Tomb(c.id, c.expiresAt, c.owner) in t.store.expired
      && t.flows == s.flows[flow := Flow(c.owner, Over)] && t.accepted == s.accepted && t.consumed == s.consumed
  {
    hide Holds, HoldsNot, Run, Step, Shaped, Initial, SignInLeaves;
    var s := Run(Initial(limits), events);
    Reachable(limits, events, c);
    RunTwo(s, Begin(flow, c.id, c.owner, kind, wait), Elapse(late));
    BeginClaims(s, flow, c, kind, wait);
    var s1 := Step(s, Begin(flow, c.id, c.owner, kind, wait));
    var s2 := Step(s1, Elapse(late));
    TimePasses(s, s1, flow, c, Calling(c.id, kind, c.userId), late);
    RunTwo(s2, Reply(flow, answer), End(flow));
    ReplyToSignIn(s, s2, flow, c, kind, answer);
    var s3 := Step(s2, Reply(flow, answer));
    var e := if answer.Identity? && answer.userId > 0 then c.(userId := Some(answer.userId)) else c;
    LateEnd(s, s3, flow, e, s3.flows[flow].pc.state);
  }

  lemma TimePasses(base: System, s: System, flow: nat, c: Challenge, pc: Pc, seconds: real)
    requires Claims(base, s, flow, c, pc) && seconds >= 0.0
    ensures
      var t := Step(s, Elapse(seconds));
      Claims(base, t, flow, c, pc) && t.now == s.now + seconds && t.consumed == s.consumed
  {
  }

  lemma LateEnd(base: System, s: System, flow: nat, c: Challenge, state: State)
    requires Claims(base, s, flow, c, Finishing(c.id, state)) && c.expiresAt <= s.now
    ensures
      var t := Step(s, End(flow));
      && HoldsNot(base, t.store, c.id) && Tomb(c.id, c.expiresAt, c.owner) in t.store.expired
      && t.flows == base.flows[flow := Flow(c.owner, Over)] && t.accepted == s.accepted && t.consumed == s.consumed
  {
    hide Holds, HoldsNot, Drop, Find, Shape;
    DroppedHoldsNot(base, s, c.(state := Processing));
  }

  // ---- what a status shows ----

  /** The owner of a live challenge sees its state, or that of a challenge waiting for its code while a call works on
      it, and its deadline; anybody else sees a failure. */
  lemma StatusShowsOwner(limits: Limits, events: seq<Event>, c: Challenge, owner: Uuid, later: Instant)
    requires limits.Accepted()
    requires var s := Run(Initial(limits), events); c in s.store.active && s.now < c.expiresAt
    ensures
      var s := Run(Initial(limits), events);
      Status(limits, s.store, c.id, owner, s.now, later).1
      == AuthStep(if owner != c.owner then Failed else if c.state == Processing then CodeSent else c.state, c.expiresAt)
  {
    hide Run, Shape, Prune, Find, Initial;
    Reachable(limits, events, c);
    PrunedHolds(Run(Initial(limits), events), c);
  }

  lemma {:induction false} NothingOverdue(l: Limits, snapshot: seq<Challenge>, s: Store, now: Instant)
    requires forall c <- snapshot :: c.expiresAt > now
    ensures PruneActive(l, snapshot, s, now) == s
    decreases |snapshot|
  {
    if snapshot != [] {
      assert snapshot[0] in snapshot;
      NothingOverdue(l, snapshot[1..], s, now);
    }
  }

  lemma {:induction false} TombFound(l: Limits, expired: seq<Tomb>, now: Instant, t: Tomb)
    requires DistinctTombs(expired) && t in expired && t.expiresAt + l.ttl >= now
    ensures FindTomb(PruneTombs(l, expired, now), t.id) == Some(t)
    decreases |expired|
  {
    var k :| 0 <= k < |expired| && expired[k] == t;
    if k > 0 {
      assert expired[0].id != t.id && expired[1..][k - 1] == t;
      TombFound(l, expired[1..], now, t);
    }
  }

  /** For one more lifetime after its deadline a remembered challenge shows as expired, to its owner only. */
  lemma StatusShowsExpired(limits: Limits, events: seq<Event>, tomb: Tomb, owner: Uuid, later: Instant)
    requires limits.Accepted()
    requires var s := Run(Initial(limits), events);
             && tomb in s.store.expired && s.now <= tomb.expiresAt + limits.ttl
             && forall c <- s.store.active :: c.expiresAt > s.now
    ensures
      var s := Run(Initial(limits), events);
      Status(limits, s.store, tomb.id, owner, s.now, later).1
      == if owner == tomb.owner then AuthStep(Expired, tomb.expiresAt) else AuthStep(Failed, later)
  {
    var s := Run(Initial(limits), events);
    RunKeepsInv(Initial(limits), events);
    StoreIsShaped(s);
    NothingOverdue(limits, s.store.active, s.store, s.now);
    TombFound(limits, s.store.expired, s.now, tomb);
    assert Find(s.store.active, tomb.id).None?;
  }

  // ---- strangers ----

  predicate CreatedBy(creators: map<Uuid, Uuid>, id: Uuid, owner: Uuid) {
    id in creators && creators[id] == owner
  }

  /** Everything stored or remembered carries its creator as owner. */
  predicate Owned(creators: map<Uuid, Uuid>, s: Store) {
    && (forall c <- s.active :: CreatedBy(creators, c.id, c.owner))
    && (forall t <- s.expired :: CreatedBy(creators, t.id, t.owner))
  }

  lemma RememberOwned(creators: map<Uuid, Uuid>, l: Limits, s: Store, active: seq<Challenge>, c: Challenge)
    requires Owned(creators, s) && CreatedBy(creators, c.id, c.owner)
    requires forall x <- active :: CreatedBy(creators, x.id, x.owner)
    ensures Owned(creators, Store(active, Remember(l, s.expired, c)))
  {
    forall t | t in Remember(l, s.expired, c)
      ensures t in s.expired || t == Tomb(c.id, c.expiresAt, c.owner)
    {
    }
  }

  lemma {:induction false} WithoutOwned(active: seq<Challenge>, id: Uuid)
    ensures forall x <- Without(active, id) :: x in active
    decreases |active|
  {
    if active != [] {
      WithoutOwned(active[1..], id);
    }
  }

  lemma {:induction false} PruneActiveOwned(creators: map<Uuid, Uuid>, l: Limits, snapshot: seq<Challenge>, s: Store,
                                            now: Instant)
    requires Owned(creators, s) && forall x <- snapshot :: CreatedBy(creators, x.id, x.owner)
    ensures Owned(creators, PruneActive(l, snapshot, s, now))
    decreases |snapshot|
  {
    if snapshot != [] {
      var c := snapshot[0];
      assert c in snapshot;
      WithoutOwned(s.active, c.id);
      RememberOwned(creators, l, s, Without(s.active, c.id), c);
      var next := if c.expiresAt <= now then Store(Without(s.active, c.id), Remember(l, s.expired, c)) else s;
      PruneActiveOwned(creators, l, snapshot[1..], next, now);
    }
  }

  lemma {:induction false} PruneTombsOwned(l: Limits, expired: seq<Tomb>, now: Instant)
    ensures forall t <- PruneTombs(l, expired, now) :: t in expired
    decreases |expired|
  {
    if expired != [] {
      PruneTombsOwned(l, expired[1..], now);
    }
  }

  lemma PruneOwned(creators: map<Uuid, Uuid>, l: Limits, s: Store, now: Instant)
    requires Owned(creators, s)
    ensures Owned(creators, Prune(l, s, now))
  {
    PruneActiveOwned(creators, l, s.active, s, now);
    PruneTombsOwned(l, PruneActive(l, s.active, s, now).expired, now);
  }

  lemma ReplaceOwned(creators: map<Uuid, Uuid>, s: Store, d: Challenge)
    requires Owned(creators, s) && CreatedBy(creators, d.id, d.owner)
    ensures Owned(creators, s.(active := Replace(s.active, d)))
  {
    forall x | x in Replace(s.active, d)
      ensures x == d || x in s.active
    {
      var i :| 0 <= i < |s.active| && Replace(s.active, d)[i] == x;
    }
  }

  lemma {:induction false} EvictOwned(creators: map<Uuid, Uuid>, l: Limits, s: Store)
    requires l.Accepted() && Owned(creators, s)
    ensures Owned(creators, Evict(l, s))
    decreases |s.active|
  {
    if |s.active| > l.capacity {
      assert s.active[0] in s.active;
      RememberOwned(creators, l, s, s.active[1..], s.active[0]);
      EvictOwned(creators, l, Store(s.active[1..], Remember(l, s.expired, s.active[0])));
    }
  }

  lemma ClaimOwned(creators: map<Uuid, Uuid>, l: Limits, s: Store, id: Uuid, owner: Uuid, expected: State, now: Instant,
                   later: Instant)
    requires Owned(creators, s)
    ensures Owned(creators, ClaimOf(l, s, id, owner, expected, now, later).0)
  {
    PruneOwned(creators, l, s, now);
    var pruned := Prune(l, s, now);
    hide Prune, Replace, Without, Remember;
    var found := Find(pruned.active, id);
    if found.Some? {
      WithoutOwned(pruned.active, found.value.id);
      RememberOwned(creators, l, pruned, Without(pruned.active, found.value.id), found.value);
      ReplaceOwned(creators, pruned, found.value.(state := Processing));
    }
  }

  lemma FinishOwned(creators: map<Uuid, Uuid>, l: Limits, s: Store, id: Uuid, state: State, now: Instant)
    requires Owned(creators, s)
    ensures Owned(creators, Finish(l, s, id, state, now).0)
  {
    hide Replace, Without, Remember;
    var found := Find(s.active, id);
    if found.Some? {
      WithoutOwned(s.active, found.value.id);
      RememberOwned(creators, l, s, Without(s.active, found.value.id), found.value);
      ReplaceOwned(creators, s, FinishedAs(found.value, state));
    }
  }

  lemma CreateOwned(s: System, owner: Uuid, later: Instant)
    requires Owned(s.creators, s.store) && s.limits.Accepted() && s.nextId !in s.creators
    ensures Owned(s.creators[s.nextId := owner],
                  ChallengeStore.Create(s.limits, s.store, s.nextId, owner, s.now, later).0)
  {
    var creators := s.creators[s.nextId := owner];
    PruneOwned(creators, s.limits, s.store, s.now);
    var pruned := Prune(s.limits, s.store, s.now);
    var made := Challenge(s.nextId, later + s.limits.ttl, owner, true, None, CodeSent);
    EvictOwned(creators, s.limits, pruned.(active := pruned.active + [made]));
  }

  lemma StepOwned(s: System, e: Event)
    requires Inv(s) && Owned(s.creators, s.store)
    ensures Owned(Step(s, e).creators, Step(s, e).store)
  {
    hide Owned, Prune, ClaimOf, Finish, ChallengeStore.Create, Replace;
    match e
    case Create(owner, wait) =>
      if wait >= 0.0 && s.limits.Accepted() {
        CreateOwned(s, owner, s.now + wait);
      }
    case Begin(flow, id, owner, kind, wait) =>
      ClaimOwned(s.creators, s.limits, s.store, id, owner, Expected(kind), s.now, s.now + wait);
    case Reply(flow, answer) =>
      if flow in s.flows && s.flows[flow].pc.Calling? && SignsIn(s.flows[flow].pc.kind, answer) {
        UserOwned(s.creators, s.store, s.flows[flow].pc.id, answer.userId);
      }
    case End(flow) =>
      if flow in s.flows && s.flows[flow].pc.Finishing? {
        FinishOwned(s.creators, s.limits, s.store, s.flows[flow].pc.id, s.flows[flow].pc.state, s.now);
      }
    case Observe(_, _, _) => PruneOwned(s.creators, s.limits, s.store, s.now);
    case _ =>
  }

  lemma UserOwned(creators: map<Uuid, Uuid>, s: Store, id: Uuid, userId: nat)
    requires Owned(creators, s)
    ensures Owned(creators, WithUser(s, id, userId))
  {
    var found := Find(s.active, id);
    if found.Some? {
      ReplaceOwned(creators, s, found.value.(userId := Some(userId)));
    }
  }

  lemma {:induction false} RunOwned(s: System, events: seq<Event>)
    requires Inv(s) && Owned(s.creators, s.store)
    ensures Owned(Run(s, events).creators, Run(s, events).store)
    decreases |events|
  {
    if events != [] {
      StepOwned(s, events[0]);
      StepKeepsInv(s, events[0]);
      RunOwned(Step(s, events[0]), events[1..]);
    }
  }

  /** Nobody but its creator learns anything of a challenge: whether it is live, in process, authorized, expired or
      was never created, every status and every claim by another answers that it failed. */
  lemma StrangersLearnNothing(limits: Limits, events: seq<Event>, id: Uuid, owner: Uuid, expected: State,
                              later: Instant)
    requires limits.Accepted()
    requires var s := Run(Initial(limits), events); !CreatedBy(s.creators, id, owner)
    ensures
      var s := Run(Initial(limits), events);
      var claim := ClaimOf(limits, s.store, id, owner, expected, s.now, later).1;
      && Status(limits, s.store, id, owner, s.now, later).1.state == Failed
      && claim.Denied? && claim.step.state == Failed
  {
    var s := Run(Initial(limits), events);
    RunKeepsInv(Initial(limits), events);
    RunOwned(Initial(limits), events);
    PruneOwned(s.creators, limits, s.store, s.now);
    var pruned := Prune(limits, s.store, s.now);
    hide Inv, Run, Prune, Initial;
    TombIsThere(pruned.expired, id);
  }

  lemma {:induction false} TombIsThere(expired: seq<Tomb>, id: Uuid)
    ensures
      var found := FindTomb(expired, id);
      found.Some? ==> found.value in expired && found.value.id == id
    decreases |expired|
  {
    if expired != [] {
      TombIsThere(expired[1..], id);
    }
  }

  lemma CreateStores(s: System, owner: Uuid, wait: real)
    requires StoreInv(s) && ChallengesOk(s) && wait >= 0.0
    ensures
      var t := Step(s, Event.Create(owner, wait));
      && Challenge(s.nextId, s.now + wait + s.limits.ttl, owner, true, None, CodeSent) in t.store.active
      && t.nextId == s.nextId + 1 && t.creators == s.creators[s.nextId := owner] && t.now == s.now + wait
      && t.flows == s.flows && t.accepted == s.accepted && t.consumed == s.consumed
  {
    DeadlinesAreNear(s, s.now + wait);
    hide ChallengeOk, ChallengesOk, Shape, ChallengeStore.Create;
    CreateKeeps(s.limits, s.store, s.nextId, owner, s.now, s.now + wait);
  }

  lemma ReachableIsSound(limits: Limits, events: seq<Event>)
    requires limits.Accepted()
    ensures var s := Run(Initial(limits), events); StoreInv(s) && ChallengesOk(s) && s.limits == limits
  {
    RunKeepsInv(Initial(limits), events);
    LimitsStay(Initial(limits), events);
  }

  /** A new challenge is stored for its creator, with its client, until one lifetime from now. */
  lemma NewChallengeIsStored(limits: Limits, events: seq<Event>, owner: Uuid, wait: real)
    requires limits.Accepted() && wait >= 0.0
    ensures
      var s := Run(Initial(limits), events);
      var t := Step(s, Event.Create(owner, wait));
      && Challenge(s.nextId, s.now + wait + limits.ttl, owner, true, None, CodeSent) in t.store.active
      && t.nextId == s.nextId + 1 && t.creators == s.creators[s.nextId := owner] && t.now == s.now + wait
      && t.flows == s.flows && t.accepted == s.accepted && t.consumed == s.consumed
  {
    hide Run, Initial, Step, StoreInv, ChallengesOk;
    ReachableIsSound(limits, events);
    CreateStores(Run(Initial(limits), events), owner, wait);
  }
}
