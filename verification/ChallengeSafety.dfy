/** One-shot authorization: what every run of the flows keeps. */
module ChallengeSafety {
  import opened Common
  import opened ChallengeStore
  import opened ChallengeInvariant
  import opened ChallengeFlows

  ghost predicate ConsumedId(s: System, id: Uuid) {
    exists k :: 0 <= k < |s.consumed| && s.consumed[k].id == id
  }

  predicate StoreInv(s: System) {
    && s.limits.Accepted()
    && Shape(s.limits, s.store, s.nextId)
    && |s.store.active| <= s.limits.capacity
  }

  /** A stored challenge: it belongs to its creator, its deadline is at most one lifetime away, an
      authorized one was accepted and has its user and client. */
  ghost predicate ChallengeOk(s: System, c: Challenge) {
    && c.id in s.creators && s.creators[c.id] == c.owner
    && c.expiresAt <= s.now + s.limits.ttl
    && (c.state != Failed && c.state != Expired ==> c.hasClient)
    && (c.state == Authorized ==>
          c.userId.Some? && c.userId.value > 0 && c.id in s.accepted && s.accepted[c.id].userId == c.userId.value &&
              !ConsumedId(s, c.id))
    && (ConsumedId(s, c.id) ==> c.state == Processing || c.state == Failed)
  }

  /** A flow under a claim: its challenge, if still stored, is in process for it. */
  ghost predicate FlowOk(s: System, f: Flow) {
    match f.pc
    case Over => true
    case Calling(id, kind, userId) =>
      && id in s.creators && s.creators[id] == f.owner && !ConsumedId(s, id) && !kind.Confirm?
      && (kind.Consume? ==>
            userId.Some? && userId.value > 0 && id in s.accepted && s.accepted[id].userId == userId.value)
      && (forall c <- s.store.active :: c.id == id ==> c.state == Processing)
    case Finishing(id, state) =>
      && id in s.creators && s.creators[id] == f.owner && state != Processing
      && (ConsumedId(s, id) ==> state == Failed)
      && (forall c <- s.store.active :: c.id == id ==>
            c.state == Processing && (state == Authorized ==> c.userId.Some? && c.userId.value > 0))
  }

  ghost predicate HistoryInv(s: System) {
    && (forall id <- s.creators :: id < s.nextId)
    && (forall id <- s.accepted :: id in s.creators && s.accepted[id].at < s.accepted[id].deadline)
    && (forall k :: 0 <= k < |s.consumed| ==>
          var c := s.consumed[k];
          && c.id in s.creators && s.creators[c.id] == c.owner
          && c.id in s.accepted && s.accepted[c.id].userId == c.userId && c.userId > 0)
    && (forall j, k :: 0 <= j < k < |s.consumed| ==> s.consumed[j].id != s.consumed[k].id)
  }

  /** No two flows work under a claim on one challenge. */
  predicate Exclusive(flows: map<nat, Flow>) {
    forall i, j :: i in flows && j in flows && i != j && !flows[i].pc.Over? && !flows[j].pc.Over? ==>
        flows[i].pc.id != flows[j].pc.id
  }

  ghost predicate ChallengesOk(s: System) {
    forall c <- s.store.active :: ChallengeOk(s, c)
  }

  ghost predicate FlowsOk(s: System) {
    forall f <- s.flows :: FlowOk(s, s.flows[f])
  }

  ghost predicate Inv(s: System) {
    StoreInv(s) && HistoryInv(s) && Exclusive(s.flows) && ChallengesOk(s) && FlowsOk(s)
  }

  lemma StoreIsShaped(s: System)
    requires Inv(s)
    ensures StoreInv(s)
  {
  }

  lemma SameHistory(s: System, t: System)
    requires s.consumed == t.consumed
    ensures forall id :: ConsumedId(t, id) <==> ConsumedId(s, id)
  {
  }

  /** The records kept about a challenge are the same, and time has not gone back. */
  predicate SameRecords(s: System, t: System, id: Uuid) {
    && s.limits == t.limits && s.now <= t.now && s.consumed == t.consumed
    && (id in s.creators ==> id in t.creators && t.creators[id] == s.creators[id])
    && (id in s.accepted ==> id in t.accepted && t.accepted[id] == s.accepted[id])
  }

  lemma ChallengeStands(s: System, t: System, c: Challenge)
    requires ChallengeOk(s, c) && SameRecords(s, t, c.id)
    ensures ChallengeOk(t, c)
  {
    SameHistory(s, t);
  }

  /** A flow is not disturbed if no other challenge comes in under its id. */
  lemma FlowStands(s: System, t: System, f: Flow)
    requires FlowOk(s, f)
    requires !f.pc.Over? ==>
      SameRecords(s, t, f.pc.id) && forall c <- t.store.active :: c.id == f.pc.id ==> c in s.store.active
    ensures FlowOk(t, f)
  {
    if !f.pc.Over? {
      SameHistory(s, t);
    }
  }

  lemma HistoryStands(s: System, t: System)
    requires HistoryInv(s) && s.creators == t.creators && s.accepted == t.accepted && s.consumed == t.consumed
    requires s.nextId == t.nextId
    ensures HistoryInv(t)
  {
  }

  /** A step that only removes challenges and lets time pass. */
  lemma FewerChallengesKeepInv(s: System, store: Store, later: Instant)
    requires Inv(s) && s.now <= later
    requires Shape(s.limits, store, s.nextId) && |store.active| <= s.limits.capacity
    requires forall c <- store.active :: c in s.store.active
    ensures Inv(s.(store := store, now := later))
  {
    hide ChallengeOk, FlowOk, HistoryInv, Exclusive, Shape;
    var t := s.(store := store, now := later);
    HistoryStands(s, t);
    forall c | c in t.store.active
      ensures ChallengeOk(t, c)
    {
      ChallengeStands(s, t, c);
    }
    forall f | f in t.flows
      ensures FlowOk(t, t.flows[f])
    {
      FlowStands(s, t, s.flows[f]);
    }
  }

  lemma OverFlowKeepsInv(s: System, flow: nat, owner: Uuid)
    requires Inv(s) && flow !in s.flows
    ensures Inv(s.(flows := s.flows[flow := Flow(owner, Over)]))
  {
    var t := s.(flows := s.flows[flow := Flow(owner, Over)]);
    assert Exclusive(t.flows) && FlowOk(t, Flow(owner, Over));
    hide ChallengeOk, FlowOk, HistoryInv, Exclusive, Shape;
    HistoryStands(s, t);
    forall f | f in t.flows
      ensures FlowOk(t, t.flows[f])
    {
      if f != flow {
        FlowStands(s, t, s.flows[f]);
      }
    }
    forall c | c in t.store.active
      ensures ChallengeOk(t, c)
    {
      ChallengeStands(s, t, c);
    }
  }

  /** After replacing c by d', an entry with c's id is d'. */
  lemma UniqueId(active: seq<Challenge>, c: Challenge, d: Challenge, d': Challenge)
    requires Ordered(active) && c in active && d.id == c.id
    requires d == d' || (d in active && d != c)
    ensures d == d'
  {
    if d in active {
      FindFinds(active, c);
      FindFinds(active, d);
    }
  }

  /** The system after one challenge was replaced by another of its id. */
  function WithChallenge(s: System, d: Challenge): System {
    s.(store := s.store.(active := Replace(s.store.active, d)))
  }

  lemma ReplacedStore(s: System, c: Challenge, d: Challenge)
    requires StoreInv(s) && c in s.store.active && d.id == c.id && d.expiresAt == c.expiresAt
    ensures
      var t := WithChallenge(s, d);
      && StoreInv(t)
      && (forall x <- t.store.active :: x == d || (x in s.store.active && x != c))
      && (forall x <- t.store.active :: x.id == c.id ==> x == d)
  {
    ReplaceKeeps(s.limits, s.store, c, d, s.nextId);
    var t := WithChallenge(s, d);
    forall x | x in t.store.active && x.id == c.id
      ensures x == d
    {
      UniqueId(s.store.active, c, x, d);
    }
  }

  /** Replacing a challenge leaves the other challenges, and the flows that work on others, as they are. */
  lemma ReplacedOthers(s: System, t: System, c: Challenge, d: Challenge)
    requires ChallengesOk(s) && FlowsOk(s) && StoreInv(s) && c in s.store.active && d.id == c.id
    requires d.expiresAt == c.expiresAt
    requires t.store == WithChallenge(s, d).store && ChallengeOk(t, d)
    requires forall id :: id != c.id ==> SameRecords(s, t, id)
    ensures ChallengesOk(t)
    ensures forall f <- s.flows :: s.flows[f].pc.Over? || s.flows[f].pc.id != c.id ==> FlowOk(t, s.flows[f])
  {
    hide ChallengeOk, FlowOk, Replace, StoreInv;
    ReplacedStore(s, c, d);
    forall x | x in t.store.active
      ensures ChallengeOk(t, x)
    {
      if x != d {
        ChallengeStands(s, t, x);
      }
    }
    forall f | f in s.flows && (s.flows[f].pc.Over? || s.flows[f].pc.id != c.id)
      ensures FlowOk(t, s.flows[f])
    {
      FlowStands(s, t, s.flows[f]);
    }
  }

  /** A claim: the challenge was not in process, so no other flow works on it. */
  lemma ClaimKeepsInv(s: System, flow: nat, c: Challenge, kind: Kind)
    requires Inv(s) && flow !in s.flows && c in s.store.active && c.state == Expected(kind)
    ensures
      var claimed := c.(state := Processing);
      Inv(s.(store := s.store.(active := Replace(s.store.active, claimed)),
             flows := s.flows[flow := Flow(c.owner, AfterClaim(c.id, kind, Claimed(claimed)))]))
  {
    var claimed := c.(state := Processing);
    var f := Flow(c.owner, AfterClaim(c.id, kind, Claimed(claimed)));
    var t := s.(store := s.store.(active := Replace(s.store.active, claimed)), flows := s.flows[flow := f]);
    hide ChallengeOk, FlowOk, HistoryInv, Replace, AfterClaim, Shape, Exclusive;
    NobodyWorksOn(s, c);
    ReplacedStore(s, c, claimed);
    ClaimedIsOk(s, t, c, kind);
    HistoryStands(s, t);
    ReplacedOthers(s, t, c, claimed);
    NewcomerIsExclusive(s.flows, flow, f);
  }

  lemma NewcomerIsExclusive(flows: map<nat, Flow>, flow: nat, f: Flow)
    requires Exclusive(flows) && flow !in flows
    requires forall g <- flows :: flows[g].pc.Over? || f.pc.Over? || flows[g].pc.id != f.pc.id
    ensures Exclusive(flows[flow := f])
  {
  }

  lemma NobodyWorksOn(s: System, c: Challenge)
    requires FlowsOk(s) && c in s.store.active && c.state != Processing
    ensures forall f <- s.flows :: s.flows[f].pc.Over? || s.flows[f].pc.id != c.id
  {
    forall f | f in s.flows && !s.flows[f].pc.Over?
      ensures s.flows[f].pc.id != c.id
    {
      assert FlowOk(s, s.flows[f]);
    }
  }

  /** The claimed challenge, and the position its claimant takes. */
  lemma ClaimedIsOk(s: System, t: System, c: Challenge, kind: Kind)
    requires ChallengesOk(s) && c in s.store.active && c.state == Expected(kind)
    requires s.limits == t.limits && s.now == t.now && s.consumed == t.consumed && s.creators == t.creators
    requires s.accepted == t.accepted
    requires forall x <- t.store.active :: x.id == c.id ==> x == c.(state := Processing)
    ensures ChallengeOk(t, c.(state := Processing))
    ensures
      var pc := AfterClaim(c.id, kind, Claimed(c.(state := Processing)));
      FlowOk(t, Flow(c.owner, pc)) && (pc.Over? || pc.id == c.id)
  {
    assert ChallengeOk(s, c);
    SameHistory(s, t);
  }

  lemma BeginKeepsInv(s: System, flow: nat, id: Uuid, owner: Uuid, kind: Kind, later: Instant)
    requires Inv(s) && flow !in s.flows && s.now <= later
    ensures Inv(Began(s, flow, id, owner, kind, later))
  {
    StoreIsShaped(s);
    var s1 := s.(store := Prune(s.limits, s.store, s.now), now := later);
    PruneKeepsInv(s, later);
    var found := Find(s1.store.active, id);
    hide Inv, StoreInv, Prune;
    if found.None? || found.value.owner != owner {
      OverFlowKeepsInv(s1, flow, owner);
    } else if found.value.expiresAt <= later {
      LateClaimKeepsInv(s1, flow, found.value, owner);
    } else if found.value.state != Expected(kind) {
      OverFlowKeepsInv(s1, flow, owner);
    } else {
      ClaimKeepsInv(s1, flow, found.value, kind);
    }
  }

  lemma LateClaimKeepsInv(s: System, flow: nat, c: Challenge, owner: Uuid)
    requires Inv(s) && flow !in s.flows && c in s.store.active
    ensures Inv(s.(store := Drop(s.limits, s.store, c), flows := s.flows[flow := Flow(owner, Over)]))
  {
    StoreIsShaped(s);
    hide Inv;
    DropKeeps(s.limits, s.store, c, s.nextId);
    assert |Drop(s.limits, s.store, c).active| <= |s.store.active|;
    FewerChallengesKeepInv(s, Drop(s.limits, s.store, c), s.now);
    OverFlowKeepsInv(s.(store := Drop(s.limits, s.store, c)), flow, owner);
  }

  /** The identity is written into the claimant's own challenge, which is in process. */
  lemma WithUserKeepsInv(s: System, flow: nat, userId: nat)
    requires Inv(s) && flow in s.flows && s.flows[flow].pc.Calling? && userId > 0
    ensures
      var t := s.(store := WithUser(s.store, s.flows[flow].pc.id, userId));
      && Inv(t)
      && (forall c <- t.store.active :: c.id == s.flows[flow].pc.id ==>
            c.state == Processing && c.userId == Some(userId))
  {
    var id := s.flows[flow].pc.id;
    var found := Find(s.store.active, id);
    assert FlowOk(s, s.flows[flow]);
    if found.Some? {
      var c := found.value;
      var d := c.(userId := Some(userId));
      var t := WithChallenge(s, d);
      UserIsOk(s, t, flow, c, userId);
      hide ChallengeOk, FlowOk, HistoryInv, Exclusive, Replace, Shape;
      ReplacedStore(s, c, d);
      HistoryStands(s, t);
      ReplacedOthers(s, t, c, d);
      ClaimantsAreAlone(s, flow);
      ClaimantStands(s, t, flow, c, userId);
    }
  }

  lemma UserIsOk(s: System, t: System, flow: nat, c: Challenge, userId: nat)
    requires Inv(s) && flow in s.flows && s.flows[flow].pc.Calling? && c in s.store.active
    requires c.id == s.flows[flow].pc.id
    requires s == t.(store := s.store)
    ensures c.state == Processing && ChallengeOk(t, c.(userId := Some(userId)))
  {
    assert FlowOk(s, s.flows[flow]) && ChallengeOk(s, c);
    SameHistory(s, t);
  }

  lemma ClaimantsAreAlone(s: System, flow: nat)
    requires Exclusive(s.flows) && flow in s.flows && !s.flows[flow].pc.Over?
    ensures forall g <- s.flows :: g != flow ==> s.flows[g].pc.Over? || s.flows[g].pc.id != s.flows[flow].pc.id
  {
  }

  lemma ClaimantStands(s: System, t: System, flow: nat, c: Challenge, userId: nat)
    requires flow in s.flows && s.flows[flow].pc.Calling? && FlowOk(s, s.flows[flow])
    requires c.id == s.flows[flow].pc.id && c.state == Processing
    requires t.limits == s.limits && t.consumed == s.consumed && t.creators == s.creators && t.accepted == s.accepted
    requires forall x <- t.store.active :: x.id == c.id ==> x == c.(userId := Some(userId))
    ensures FlowOk(t, s.flows[flow])
  {
    SameHistory(s, t);
  }

  /** A flow's next position is good if its challenge is in the state that position needs. */
  lemma MoveKeepsInv(s: System, flow: nat, pc: Pc)
    requires Inv(s) && flow in s.flows && s.flows[flow].pc.Calling?
    requires pc.Finishing? && pc.id == s.flows[flow].pc.id && pc.state != Processing
    requires pc.state == Authorized ==>
      forall c <- s.store.active :: c.id == pc.id ==> c.userId.Some? && c.userId.value > 0
    ensures Inv(s.(flows := s.flows[flow := s.flows[flow].(pc := pc)]))
  {
    var t := s.(flows := s.flows[flow := s.flows[flow].(pc := pc)]);
    SameHistory(s, t);
    assert FlowOk(s, s.flows[flow]);
    assert FlowOk(t, t.flows[flow]);
    ClaimantsAreAlone(s, flow);
    hide ChallengeOk, FlowOk, HistoryInv, Shape;
    HistoryStands(s, t);
    forall g | g in t.flows
      ensures FlowOk(t, t.flows[g])
    {
      if g != flow {
        FlowStands(s, t, s.flows[g]);
      }
    }
    forall c | c in t.store.active
      ensures ChallengeOk(t, c)
    {
      ChallengeStands(s, t, c);
    }
  }

  /** Handing out the session of a challenge in process, whose claimant goes on to fail it. */
  lemma ConsumeKeepsInv(s: System, flow: nat, userId: nat)
    requires Inv(s) && flow in s.flows && s.flows[flow].pc.Calling?
    requires s.flows[flow].pc.kind.Consume? && s.flows[flow].pc.userId == Some(userId)
    ensures
      var f := s.flows[flow];
      Inv(s.(flows := s.flows[flow := f.(pc := Finishing(f.pc.id, Failed))],
             consumed := s.consumed + [Consumption(f.pc.id, f.owner, userId)]))
  {
    var f := s.flows[flow];
    var id := f.pc.id;
    assert FlowOk(s, f);
    var t := s.(flows := s.flows[flow := f.(pc := Finishing(id, Failed))],
        consumed := s.consumed + [Consumption(id, f.owner, userId)]);
    forall other
      ensures ConsumedId(t, other) <==> ConsumedId(s, other) || other == id
    {
      if ConsumedId(s, other) {
        var k :| 0 <= k < |s.consumed| && s.consumed[k].id == other;
        assert t.consumed[k].id == other;
      }
      assert t.consumed[|s.consumed|].id == id;
    }
    forall c | c in t.store.active
      ensures ChallengeOk(t, c)
    {
      assert ChallengeOk(s, c);
    }
    forall g | g in t.flows
      ensures FlowOk(t, t.flows[g])
    {
      assert FlowOk(s, s.flows[g]);
    }
    forall j, k | 0 <= j < k < |t.consumed|
      ensures t.consumed[j].id != t.consumed[k].id
    {
      assert k == |s.consumed| ==> ConsumedId(s, t.consumed[j].id);
    }
  }

  lemma ReplyKeepsInv(s: System, flow: nat, answer: Answer)
    requires Inv(s) && flow in s.flows && s.flows[flow].pc.Calling?
    ensures Inv(Replied(s, flow, answer))
  {
    var f := s.flows[flow];
    var next := AfterReply(f.pc.id, f.pc.kind, answer);
    assert FlowOk(s, f);
    if SignsIn(f.pc.kind, answer) {
      WithUserKeepsInv(s, flow, answer.userId);
      MoveKeepsInv(s.(store := WithUser(s.store, f.pc.id, answer.userId)), flow, next);
    } else if f.pc.kind.Consume? && answer.Session? && answer.payload != [] && f.pc.userId.Some? {
      ConsumeKeepsInv(s, flow, f.pc.userId.value);
    } else {
      MoveKeepsInv(s, flow, next);
    }
  }

  /** The challenge that its claimant has finished in time. */
  function FinishedChallenge(c: Challenge, state: State): Challenge {
    c.(state := state, hasClient := c.hasClient && state != Failed && state != Expired)
  }

  /** Its records: only an acceptance may be added, and only for this challenge. */
  lemma FinishedIsOk(s: System, t: System, flow: nat, c: Challenge)
    requires Inv(s) && flow in s.flows && s.flows[flow].pc.Finishing? && c in s.store.active
    requires c.id == s.flows[flow].pc.id
    requires t.limits == s.limits && t.now == s.now && t.creators == s.creators && t.consumed == s.consumed
    requires t.nextId == s.nextId
    requires s.now < c.expiresAt
    requires var state := s.flows[flow].pc.state;
             t.accepted == if state == Authorized && c.userId.Some?
                           then s.accepted[c.id := Acceptance(s.now, c.expiresAt, c.userId.value)] else s.accepted
    ensures s.flows[flow].pc.state == Authorized ==> c.userId.Some?
    ensures ChallengeOk(t, FinishedChallenge(c, s.flows[flow].pc.state)) && HistoryInv(t)
    ensures forall id :: id != c.id ==> SameRecords(s, t, id)
  {
    assert FlowOk(s, s.flows[flow]) && ChallengeOk(s, c);
    SameHistory(s, t);
    forall k | 0 <= k < |s.consumed|
      ensures s.flows[flow].pc.state == Authorized ==> s.consumed[k].id != c.id
    {
      assert ConsumedId(s, s.consumed[k].id);
    }
  }

  lemma EndKeepsInv(s: System, flow: nat)
    requires Inv(s) && flow in s.flows && s.flows[flow].pc.Finishing?
    ensures Inv(Finished(s, flow))
  {
    var id := s.flows[flow].pc.id;
    var found := Find(s.store.active, id);
    if found.None? || found.value.expiresAt <= s.now {
      LateEndKeepsInv(s, flow);
    } else {
      TimelyEndKeepsInv(s, flow, found.value);
    }
  }

  lemma LateEndKeepsInv(s: System, flow: nat)
    requires Inv(s) && flow in s.flows && s.flows[flow].pc.Finishing?
    requires var found := Find(s.store.active, s.flows[flow].pc.id); found.None? || found.value.expiresAt <= s.now
    ensures Inv(Finished(s, flow))
  {
    var f := s.flows[flow];
    var found := Find(s.store.active, f.pc.id);
    hide ChallengeOk, FlowOk, HistoryInv, Shape;
    var store := Finish(s.limits, s.store, f.pc.id, f.pc.state, s.now).0;
    if found.Some? {
      DropKeeps(s.limits, s.store, found.value, s.nextId);
      assert |store.active| <= |s.store.active|;
    }
    FewerChallengesKeepInv(s, store, s.now);
    EndedFlowKeepsInv(s.(store := store), flow);
  }

  /** A flow that is over needs nothing. */
  lemma EndedFlowKeepsInv(s: System, flow: nat)
    requires Inv(s) && flow in s.flows
    ensures Inv(s.(flows := s.flows[flow := s.flows[flow].(pc := Over)]))
  {
    var t := s.(flows := s.flows[flow := s.flows[flow].(pc := Over)]);
    assert Exclusive(t.flows) && FlowOk(t, t.flows[flow]);
    hide ChallengeOk, FlowOk, HistoryInv, Exclusive, Shape;
    HistoryStands(s, t);
    forall g | g in t.flows
      ensures FlowOk(t, t.flows[g])
    {
      if g != flow {
        FlowStands(s, t, s.flows[g]);
      }
    }
    forall c | c in t.store.active
      ensures ChallengeOk(t, c)
    {
      ChallengeStands(s, t, c);
    }
  }

  lemma TimelyEndKeepsInv(s: System, flow: nat, c: Challenge)
    requires Inv(s) && flow in s.flows && s.flows[flow].pc.Finishing?
    requires Find(s.store.active, s.flows[flow].pc.id) == Some(c) && s.now < c.expiresAt
    ensures Inv(Finished(s, flow))
  {
    var t := Finished(s, flow);
    var d := FinishedChallenge(c, s.flows[flow].pc.state);
    assert FlowOk(s, s.flows[flow]);
    ClaimantsAreAlone(s, flow);
    FinishedIsOk(s, t, flow, c);
    ReplacedStore(s, c, d);
    OverIsExclusive(s.flows, flow);
    hide ChallengeOk, FlowOk, HistoryInv, Replace, Shape, Exclusive, Find;
    ReplacedOthers(s, t, c, d);
    OverIsOk(t, t.flows[flow]);
  }

  lemma OverIsOk(t: System, f: Flow)
    requires f.pc.Over?
    ensures FlowOk(t, f)
  {
  }

  lemma OverIsExclusive(flows: map<nat, Flow>, flow: nat)
    requires Exclusive(flows) && flow in flows
    ensures Exclusive(flows[flow := flows[flow].(pc := Over)])
  {
  }

  lemma DeadlinesAreNear(s: System, later: Instant)
    requires ChallengesOk(s) && s.now <= later
    ensures forall c <- s.store.active :: c.expiresAt <= later + s.limits.ttl
  {
    forall c | c in s.store.active
      ensures c.expiresAt <= later + s.limits.ttl
    {
      assert ChallengeOk(s, c);
    }
  }

  lemma CreateStep(s: System, owner: Uuid, wait: real)
    requires s.limits.Accepted() && wait >= 0.0
    ensures
      var t := Step(s, Event.Create(owner, wait));
      t == s.(store := ChallengeStore.Create(s.limits, s.store, s.nextId, owner, s.now, s.now + wait).0,
              now := s.now + wait, nextId := s.nextId + 1, creators := s.creators[s.nextId := owner])
  {
  }

  lemma CreateKeepsInv(s: System, owner: Uuid, wait: real)
    requires Inv(s) && wait >= 0.0
    ensures Inv(Step(s, Event.Create(owner, wait)))
  {
    var t := Step(s, Event.Create(owner, wait));
    DeadlinesAreNear(s, s.now + wait);
    CreateStep(s, owner, wait);
    hide ChallengeOk, FlowOk, HistoryInv, Shape, ChallengeStore.Create, Exclusive, ChallengesOk, FlowsOk, Step;
    CreateKeeps(s.limits, s.store, s.nextId, owner, s.now, s.now + wait);
    CreatedIsOk(s, t, owner);
    CreatedOthers(s, t, owner);
  }

  lemma CreatedOthers(s: System, t: System, owner: Uuid)
    requires Inv(s) && s.now <= t.now && t.limits == s.limits && t.accepted == s.accepted
    requires t.consumed == s.consumed && t.flows == s.flows
    requires t.creators == s.creators[s.nextId := owner]
    requires forall x <- t.store.active :: x == Made(s.limits, s.nextId, owner, t.now) || x in s.store.active
    requires ChallengeOk(t, Made(s.limits, s.nextId, owner, t.now))
    ensures ChallengesOk(t) && FlowsOk(t)
  {
    hide ChallengeOk, FlowOk, HistoryInv, Shape, Exclusive;
    forall x | x in t.store.active
      ensures ChallengeOk(t, x)
    {
      if x in s.store.active {
        BelowNext(s, x);
        ChallengeStands(s, t, x);
      }
    }
    forall g | g in t.flows
      ensures FlowOk(t, t.flows[g])
    {
      CreatorKnown(s, g);
      FlowStands(s, t, s.flows[g]);
    }
  }

  lemma BelowNext(s: System, c: Challenge)
    requires StoreInv(s) && c in s.store.active
    ensures c.id < s.nextId
  {
  }

  lemma CreatorKnown(s: System, g: nat)
    requires FlowsOk(s) && HistoryInv(s) && g in s.flows
    ensures !s.flows[g].pc.Over? ==> s.flows[g].pc.id < s.nextId
  {
    assert FlowOk(s, s.flows[g]);
  }

  /** The new challenge, and the records with its creator. */
  lemma CreatedIsOk(s: System, t: System, owner: Uuid)
    requires Inv(s) && s.now <= t.now && t.limits == s.limits && t.accepted == s.accepted && t.consumed == s.consumed
    requires t.creators == s.creators[s.nextId := owner] && t.nextId == s.nextId + 1
    ensures HistoryInv(t) && ChallengeOk(t, Made(s.limits, s.nextId, owner, t.now))
  {
    SameHistory(s, t);
    assert !ConsumedId(s, s.nextId);
  }

  lemma StatusOnlyPrunes(l: Limits, store: Store, id: Uuid, owner: Uuid, now: Instant, later: Instant)
    ensures Status(l, store, id, owner, now, later).0 == Prune(l, store, now)
  {
  }

  lemma PruneKeepsInv(s: System, later: Instant)
    requires Inv(s) && s.now <= later
    ensures Inv(s.(store := Prune(s.limits, s.store, s.now), now := later))
  {
    PruneKeeps(s.limits, s.store, s.now, s.nextId);
    FewerChallengesKeepInv(s, Prune(s.limits, s.store, s.now), later);
  }

  lemma QuietKeepsInv(s: System, e: Event)
    requires Inv(s) && (e.Elapse? || e.Observe?)
    ensures Inv(Step(s, e)) && Step(s, e).limits == s.limits
  {
    StoreIsShaped(s);
    hide Inv;
    if e.Elapse? {
      if e.seconds >= 0.0 {
        FewerChallengesKeepInv(s, s.store, s.now + e.seconds);
        assert Step(s, e) == s.(store := s.store, now := s.now + e.seconds);
      }
    } else if e.wait >= 0.0 {
      PruneKeepsInv(s, s.now + e.wait);
      StatusOnlyPrunes(s.limits, s.store, e.id, e.owner, s.now, s.now + e.wait);
      assert Step(s, e) == s.(store := Prune(s.limits, s.store, s.now), now := s.now + e.wait);
    }
  }

  lemma BeginStep(s: System, e: Event, t: System)
    requires e.Begin? && e.wait >= 0.0 && e.flow !in s.flows
    requires t == Began(s, e.flow, e.id, e.owner, e.kind, s.now + e.wait) && Inv(t)
    ensures Inv(Step(s, e)) && Step(s, e).limits == s.limits
  {
    assert Step(s, e) == t;
  }

  lemma ReplyStep(s: System, e: Event)
    requires Inv(s) && e.Reply?
    ensures Inv(Step(s, e)) && Step(s, e).limits == s.limits
  {
    if e.flow in s.flows && s.flows[e.flow].pc.Calling? {
      ReplyKeepsInv(s, e.flow, e.answer);
    }
  }

  lemma EndStep(s: System, e: Event)
    requires Inv(s) && e.End?
    ensures Inv(Step(s, e)) && Step(s, e).limits == s.limits
  {
    if e.flow in s.flows && s.flows[e.flow].pc.Finishing? {
      EndKeepsInv(s, e.flow);
    }
  }

  lemma StepKeepsInv(s: System, e: Event)
    requires Inv(s)
    ensures Inv(Step(s, e)) && Step(s, e).limits == s.limits
  {
    hide Inv;
    if e.Elapse? || e.Observe? {
      QuietKeepsInv(s, e);
    } else if e.Create? {
      if e.wait >= 0.0 {
        CreateKeepsInv(s, e.owner, e.wait);
      }
    } else if e.Begin? {
      if e.wait >= 0.0 && e.flow !in s.flows {
        BeginKeepsInv(s, e.flow, e.id, e.owner, e.kind, s.now + e.wait);
        BeginStep(s, e, Began(s, e.flow, e.id, e.owner, e.kind, s.now + e.wait));
      }
    } else if e.Reply? {
      ReplyStep(s, e);
    } else {
      EndStep(s, e);
    }
  }

  lemma {:induction false} RunKeepsInv(s: System, events: seq<Event>)
    requires Inv(s)
    ensures Inv(Run(s, events)) && Run(s, events).limits == s.limits
    decreases |events|
  {
    if events != [] {
      StepKeepsInv(s, events[0]);
      RunKeepsInv(Step(s, events[0]), events[1..]);
    }
  }

  // ---- the claims ----

  /** Client calls made under a claim never overlap for one challenge. */
  lemma CallsNeverOverlap(limits: Limits, events: seq<Event>, i: nat, j: nat)
    requires limits.Accepted()
    requires var s := Run(Initial(limits), events);
             i in s.flows && j in s.flows && s.flows[i].pc.Calling? && s.flows[j].pc.Calling? &&
                 s.flows[i].pc.id == s.flows[j].pc.id
    ensures i == j
  {
    RunKeepsInv(Initial(limits), events);
  }

  /** A session is handed out at most once per challenge, only to the owner who created it, only after an
      identity had been accepted before the deadline, and for that identity. */
  lemma SessionsAreOneShot(limits: Limits, events: seq<Event>)
    requires limits.Accepted()
    ensures
      var s := Run(Initial(limits), events);
      && (forall j, k :: 0 <= j < k < |s.consumed| ==> s.consumed[j].id != s.consumed[k].id)
      && (forall k :: 0 <= k < |s.consumed| ==>
            var c := s.consumed[k];
            && c.id in s.creators && s.creators[c.id] == c.owner && c.userId > 0
            && c.id in s.accepted && s.accepted[c.id].at < s.accepted[c.id].deadline
            && s.accepted[c.id].userId == c.userId)
  {
    RunKeepsInv(Initial(limits), events);
  }

  /** A claim for consumption is never left in process for want of a user or a client. */
  lemma ConsumersAreNeverStuck(limits: Limits, events: seq<Event>, id: Uuid, owner: Uuid, later: Instant)
    requires limits.Accepted()
    requires var s := Run(Initial(limits), events);
             s.now <= later && ClaimOf(limits, s.store, id, owner, Authorized, s.now, later).1.Claimed?
    ensures
      var s := Run(Initial(limits), events);
      AfterClaim(id, Consume, ClaimOf(limits, s.store, id, owner, Authorized, s.now, later).1).Calling?
  {
    RunKeepsInv(Initial(limits), events);
    var s := Run(Initial(limits), events);
    PruneKeeps(limits, s.store, s.now, s.nextId);
    var c := Find(Prune(limits, s.store, s.now).active, id).value;
    assert ChallengeOk(s, c);
    hide Inv, Prune, Run, Find;
  }

  /** The active and the expired map share no id and stay within capacity; and the oldest active
      challenge, the one eviction takes, expires first. */
  lemma MapsAreBounded(limits: Limits, events: seq<Event>)
    requires limits.Accepted()
    ensures
      var s := Run(Initial(limits), events);
      && |s.store.active| <= limits.capacity && |s.store.expired| <= limits.capacity
      && (forall i, j :: 0 <= i < |s.store.active| && 0 <= j < |s.store.expired| ==>
            s.store.active[i].id != s.store.expired[j].id)
      && (forall i :: 0 < i < |s.store.active| ==> s.store.active[0].expiresAt <= s.store.active[i].expiresAt)
  {
    RunKeepsInv(Initial(limits), events);
  }

  /** In every reachable state, creating a challenge evicts only live challenges that expire no later
      than any that stay. */
  lemma EvictionTakesEarliest(limits: Limits, events: seq<Event>, owner: Uuid, wait: real, c: Challenge, d: Challenge)
    requires limits.Accepted() && wait >= 0.0
    requires var s := Run(Initial(limits), events);
             var t := Step(s, Event.Create(owner, wait));
             c in s.store.active && c.expiresAt > s.now && c !in t.store.active && d in t.store.active
    ensures c.expiresAt <= d.expiresAt
  {
    RunKeepsInv(Initial(limits), events);
    hide *;
    EvictionFrom(Run(Initial(limits), events), owner, wait, c, d);
  }

  lemma EvictionFrom(s: System, owner: Uuid, wait: real, c: Challenge, d: Challenge)
    requires Inv(s) && wait >= 0.0 && c in s.store.active && c.expiresAt > s.now
    requires var t := Step(s, Event.Create(owner, wait)); c !in t.store.active && d in t.store.active
    ensures c.expiresAt <= d.expiresAt
  {
    StoreIsShaped(s);
    CreateStep(s, owner, wait);
    DeadlinesAreNear(s, s.now + wait);
    hide Step, Inv, ChallengesOk, FlowsOk, HistoryInv, Exclusive, Shape, ChallengeStore.Create;
    CreateEvictsEarliest(s.limits, s.store, s.nextId, owner, s.now, s.now + wait, c, d);
  }
}
