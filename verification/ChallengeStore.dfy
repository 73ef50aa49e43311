/** The bounded store of authorization challenges (adapters/phone.py).

    An ordered dictionary is a sequence of entries in insertion order. Challenge ids are drawn fresh,
    so the object identity that `finish` compares is the presence of the id. The source reads the
    clock again inside some operations; `later` is that second reading. */
module ChallengeStore {
  import opened Common

  datatype State = CodeSent | Processing | Needs2fa | Authorized | Failed | Expired

  datatype Challenge = Challenge(
    id: Uuid,
    expiresAt: Instant,
    owner: Uuid,
    hasClient: bool,
    userId: Option<nat>,
    state: State)

  /** What is remembered of a challenge that was dropped. */
  datatype Tomb = Tomb(id: Uuid, expiresAt: Instant, owner: Uuid)

  datatype Store = Store(active: seq<Challenge>, expired: seq<Tomb>)

  datatype Limits = Limits(ttl: real, capacity: nat)
  {
    predicate Accepted() {
      ttl >= 0.0 && capacity >= 1
    }
  }

  /** The public view: a state and a deadline. */
  datatype AuthStep = AuthStep(state: State, expiresAt: Instant)

  function Find(active: seq<Challenge>, id: Uuid): (r: Option<Challenge>)
    ensures r.Some? ==> r.value in active && r.value.id == id
    ensures r.None? ==> forall i :: 0 <= i < |active| ==> active[i].id != id
  {
    if active == [] then None
    else if active[0].id == id then Some(active[0])
    else Find(active[1..], id)
  }

  function FindTomb(expired: seq<Tomb>, id: Uuid): Option<Tomb> {
    if expired == [] then None
    else if expired[0].id == id then Some(expired[0])
    else FindTomb(expired[1..], id)
  }

  function Without(active: seq<Challenge>, id: Uuid): (r: seq<Challenge>)
    ensures |r| <= |active|
  {
    if active == [] then []
    else if active[0].id == id then Without(active[1..], id)
    else [active[0]] + Without(active[1..], id)
  }

  /** The same entries with the challenge of that id replaced. */
  function Replace(active: seq<Challenge>, c: Challenge): (r: seq<Challenge>)
    ensures |r| == |active|
    ensures forall i :: 0 <= i < |active| ==> r[i] == if active[i].id == c.id then c else active[i]
  {
    if active == [] then [] else [if active[0].id == c.id then c else active[0]] + Replace(active[1..], c)
  }

  /** Append, then drop the oldest tombs over capacity. */
  function Remember(l: Limits, expired: seq<Tomb>, c: Challenge): seq<Tomb> {
    var all := expired + [Tomb(c.id, c.expiresAt, c.owner)];
    if |all| > l.capacity then all[|all| - l.capacity..] else all
  }

  /** The first loop of `_prune_locked`, over a snapshot of the active challenges. */
  function PruneActive(l: Limits, snapshot: seq<Challenge>, s: Store, now: Instant): Store
    decreases |snapshot|
  {
    if snapshot == [] then s
    else if snapshot[0].expiresAt <= now then
      PruneActive(l, snapshot[1..], Store(Without(s.active, snapshot[0].id), Remember(l, s.expired, snapshot[0])), now)
    else
      PruneActive(l, snapshot[1..], s, now)
  }

  /** The second loop: tombs older than one more lifetime go. */
  function PruneTombs(l: Limits, expired: seq<Tomb>, now: Instant): (r: seq<Tomb>)
    ensures |r| <= |expired|
  {
    if expired == [] then []
    else if expired[0].expiresAt + l.ttl < now then PruneTombs(l, expired[1..], now)
    else [expired[0]] + PruneTombs(l, expired[1..], now)
  }

  function Prune(l: Limits, s: Store, now: Instant): Store {
    var s' := PruneActive(l, s.active, s, now);
    s'.(expired := PruneTombs(l, s'.expired, now))
  }

  /** The oldest challenges go first. */
  function Evict(l: Limits, s: Store): Store
    requires l.Accepted()
    decreases |s.active|
  {
    if |s.active| <= l.capacity then s
    else Evict(l, Store(s.active[1..], Remember(l, s.expired, s.active[0])))
  }

  function Create(l: Limits, s: Store, id: Uuid, owner: Uuid, now: Instant, later: Instant): (Store, AuthStep)
    requires l.Accepted()
  {
    var pruned := Prune(l, s, now);
    var expiresAt := later + l.ttl;
    (Evict(l, pruned.(active := pruned.active + [Challenge(id, expiresAt, owner, true, None, CodeSent)])),
     AuthStep(CodeSent, expiresAt))
  }

  /** What someone who has no claim on the id is told. */
  function Gone(s: Store, id: Uuid, owner: Uuid, now: Instant): AuthStep {
    var tomb := FindTomb(s.expired, id);
    if tomb.Some? && tomb.value.owner == owner then AuthStep(Expired, tomb.value.expiresAt) else AuthStep(Failed, now)
  }

  function Drop(l: Limits, s: Store, c: Challenge): Store {
    Store(Without(s.active, c.id), Remember(l, s.expired, c))
  }

  datatype Claim = Claimed(challenge: Challenge) | Denied(step: AuthStep)

  /** Only the owner of a live challenge in the expected state claims it, and it is then in process. */
  function ClaimOf(l: Limits, s: Store, id: Uuid, owner: Uuid, expected: State, now: Instant, later: Instant)
    : (Store, Claim)
  {
    var pruned := Prune(l, s, now);
    var found := Find(pruned.active, id);
    if found.None? then (pruned, Denied(Gone(pruned, id, owner, later)))
    else
      var c := found.value;
      if c.owner != owner then (pruned, Denied(AuthStep(Failed, c.expiresAt)))
      else if c.expiresAt <= later then (Drop(l, pruned, c), Denied(AuthStep(Expired, c.expiresAt)))
      else if c.state != expected then (pruned, Denied(AuthStep(Failed, c.expiresAt)))
      else
        var claimed := c.(state := Processing);
        (pruned.(active := Replace(pruned.active, claimed)), Claimed(claimed))
  }

  /** The deadline is checked again after the client's answer. */
  function Finish(l: Limits, s: Store, id: Uuid, state: State, now: Instant): (Store, AuthStep)
  {
    var found := Find(s.active, id);
    if found.None? then (s, AuthStep(Failed, now))
    else
      var c := found.value;
      if c.expiresAt <= now then (Drop(l, s, c), AuthStep(Expired, c.expiresAt))
      else
        (s.(active := Replace(s.active,
            c.(state := state, hasClient := c.hasClient && state != Failed && state != Expired))),
         AuthStep(state, c.expiresAt))
  }

  /** A challenge in process shows as waiting for its code. */
  function Status(l: Limits, s: Store, id: Uuid, owner: Uuid, now: Instant, later: Instant): (Store, AuthStep)
  {
    var pruned := Prune(l, s, now);
    var found := Find(pruned.active, id);
    if found.None? then (pruned, Gone(pruned, id, owner, later))
    else if found.value.owner != owner then (pruned, AuthStep(Failed, found.value.expiresAt))
    else (pruned, AuthStep(if found.value.state == Processing then CodeSent
      else found.value.state, found.value.expiresAt))
  }

  class ChallengeBook {
    const limits: Limits
    var store: Store

    constructor (limits: Limits)
      requires limits.Accepted()
      ensures this.limits == limits && store == Store([], [])
    {
      this.limits := limits;
      this.store := Store([], []);
    }

    method RememberExpired(c: Challenge)
      modifies this
      ensures store == old(store).(expired := Remember(limits, old(store).expired, c))
    {
      var all := store.expired + [Tomb(c.id, c.expiresAt, c.owner)];
      var kept := all;
      while |kept| > limits.capacity
        invariant |kept| <= |all| && kept == all[|all| - |kept|..]
        invariant |kept| == |all| || |kept| >= limits.capacity
      {
        kept := kept[1..];
      }
      store := store.(expired := kept);
    }

    method PruneLocked(now: Instant)
      modifies this
      ensures store == Prune(limits, old(store), now)
    {
      var snapshot := store.active;
      var i := 0;
      while i < |snapshot|
        invariant 0 <= i <= |snapshot|
        invariant PruneActive(limits, snapshot, old(store), now) == PruneActive(limits, snapshot[i..], store, now)
      {
        var c := snapshot[i];
        if c.expiresAt <= now {
          store := store.(active := Without(store.active, c.id));
          RememberExpired(c);
        }
        i := i + 1;
      }
      var tombs := store.expired;
      var kept: seq<Tomb> := [];
      var j := 0;
      while j < |tombs|
        invariant 0 <= j <= |tombs|
        invariant PruneTombs(limits, tombs, now) == kept + PruneTombs(limits, tombs[j..], now)
      {
        assert tombs[j..][1..] == tombs[j + 1..];
        if !(tombs[j].expiresAt + limits.ttl < now) {
          kept := kept + [tombs[j]];
        }
        j := j + 1;
      }
      assert tombs[j..] == [];
      store := store.(expired := kept);
    }

    method CreateChallenge(id: Uuid, owner: Uuid, now: Instant, later: Instant) returns (step: AuthStep)
      requires limits.Accepted()
      modifies this
      ensures (store, step) == Create(limits, old(store), id, owner, now, later)
    {
      PruneLocked(now);
      var expiresAt := later + limits.ttl;
      store := store.(active := store.active + [Challenge(id, expiresAt, owner, true, None, CodeSent)]);
      ghost var full := store;
      while |store.active| > limits.capacity
        invariant Evict(limits, store) == Evict(limits, full)
        decreases |store.active|
      {
        var evicted := store.active[0];
        store := store.(active := store.active[1..]);
        RememberExpired(evicted);
      }
      step := AuthStep(CodeSent, expiresAt);
    }

    method ClaimChallenge(id: Uuid, owner: Uuid, expected: State, now: Instant, later: Instant) returns (claim: Claim)
      modifies this
      ensures (store, claim) == ClaimOf(limits, old(store), id, owner, expected, now, later)
    {
      PruneLocked(now);
      var found := Find(store.active, id);
      if found.None? {
        return Denied(Gone(store, id, owner, later));
      }
      var c := found.value;
      if c.owner != owner {
        return Denied(AuthStep(Failed, c.expiresAt));
      }
      if c.expiresAt <= later {
        store := store.(active := Without(store.active, id));
        RememberExpired(c);
        return Denied(AuthStep(Expired, c.expiresAt));
      }
      if c.state != expected {
        return Denied(AuthStep(Failed, c.expiresAt));
      }
      c := c.(state := Processing);
      store := store.(active := Replace(store.active, c));
      return Claimed(c);
    }

    method FinishChallenge(id: Uuid, state: State, now: Instant) returns (step: AuthStep)
      modifies this
      ensures (store, step) == Finish(limits, old(store), id, state, now)
    {
      var found := Find(store.active, id);
      if found.None? {
        return AuthStep(Failed, now);
      }
      var c := found.value;
      if c.expiresAt <= now {
        store := store.(active := Without(store.active, id));
        RememberExpired(c);
        return AuthStep(Expired, c.expiresAt);
      }
      c := c.(state := state);
      if state == Failed || state == Expired {
        c := c.(hasClient := false);
      }
      store := store.(active := Replace(store.active, c));
      return AuthStep(state, c.expiresAt);
    }
  }
}
