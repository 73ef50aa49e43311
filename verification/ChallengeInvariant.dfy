/** What every operation of the challenge store keeps. */
module ChallengeInvariant {
  import opened Common
  import opened ChallengeStore

  /** Ids are distinct, and the oldest challenge expires first. */
  predicate Ordered(active: seq<Challenge>) {
    forall i, j :: 0 <= i < j < |active| ==> active[i].id != active[j].id && active[i].expiresAt <= active[j].expiresAt
  }

  predicate DistinctTombs(expired: seq<Tomb>) {
    forall i, j :: 0 <= i < j < |expired| ==> expired[i].id != expired[j].id
  }

  predicate Disjoint(active: seq<Challenge>, expired: seq<Tomb>) {
    forall i, j :: 0 <= i < |active| && 0 <= j < |expired| ==> active[i].id != expired[j].id
  }

  /** All ids are below the next fresh one. */
  predicate Below(s: Store, next: Uuid) {
    && (forall i :: 0 <= i < |s.active| ==> s.active[i].id < next)
    && (forall i :: 0 <= i < |s.expired| ==> s.expired[i].id < next)
  }

  /** The shape of the two maps between operations, but for the bound on the active one. */
  predicate Shape(l: Limits, s: Store, next: Uuid) {
    && Ordered(s.active) && DistinctTombs(s.expired) && Disjoint(s.active, s.expired) && Below(s, next)
    && |s.expired| <= l.capacity
  }

  lemma {:induction false} AllKept(active: seq<Challenge>, id: Uuid)
    requires forall i :: 0 <= i < |active| ==> active[i].id != id
    ensures Without(active, id) == active
    decreases |active|
  {
    if active != [] {
      AllKept(active[1..], id);
    }
  }

  /** Removing by id removes the one entry with that id. */
  lemma {:induction false} WithoutAt(active: seq<Challenge>, k: nat)
    requires Ordered(active) && k < |active|
    ensures Without(active, active[k].id) == active[..k] + active[k + 1..]
    decreases k
  {
    if k == 0 {
      AllKept(active[1..], active[0].id);
    } else {
      WithoutAt(active[1..], k - 1);
      assert active[..k] == [active[0]] + active[1..][..k - 1] && active[1..][k..] == active[k + 1..];
    }
  }

  lemma OrderedWithoutAt(active: seq<Challenge>, k: nat)
    requires Ordered(active) && k < |active|
    ensures Ordered(active[..k] + active[k + 1..])
    ensures forall c :: c in active[..k] + active[k + 1..] <==> c in active && c.id != active[k].id
  {
    var r := active[..k] + active[k + 1..];
    forall c | c in active && c.id != active[k].id
      ensures c in r
    {
      var i :| 0 <= i < |active| && active[i] == c;
      assert if i < k then r[i] == c else r[i - 1] == c;
    }
  }

  lemma WithoutIsFilter(active: seq<Challenge>, c: Challenge)
    requires Ordered(active) && c in active
    ensures Ordered(Without(active, c.id))
    ensures forall x :: x in Without(active, c.id) <==> x in active && x.id != c.id
  {
    var k :| 0 <= k < |active| && active[k] == c;
    WithoutAt(active, k);
    OrderedWithoutAt(active, k);
  }

  lemma FindFinds(active: seq<Challenge>, c: Challenge)
    requires Ordered(active) && c in active
    ensures Find(active, c.id) == Some(c)
  {
    var found := Find(active, c.id);
    var i :| 0 <= i < |active| && active[i] == c;
    if found.Some? {
      var j :| 0 <= j < |active| && active[j] == found.value;
      assert i == j;
    }
  }

  /** Dropping a challenge moves it from one map to the other. */
  lemma DropKeeps(l: Limits, s: Store, c: Challenge, next: Uuid)
    requires l.Accepted() && Shape(l, s, next) && c in s.active
    ensures Shape(l, Drop(l, s, c), next)
    ensures forall x :: x in Drop(l, s, c).active <==> x in s.active && x != c
  {
    WithoutIsFilter(s.active, c);
    var t := Drop(l, s, c);
    var all := s.expired + [Tomb(c.id, c.expiresAt, c.owner)];
    forall i | 0 <= i < |t.active|
      ensures t.active[i] in s.active && t.active[i].id != c.id
    {
      assert t.active[i] in t.active;
    }
    assert DistinctTombs(all) && Disjoint(t.active, all);
    forall x | x in s.active && x != c
      ensures x.id != c.id
    {
      FindFinds(s.active, x);
      FindFinds(s.active, c);
    }
  }

  lemma {:induction false} PruneActiveKeeps(l: Limits, snapshot: seq<Challenge>, s: Store, now: Instant, next: Uuid)
    requires l.Accepted() && Shape(l, s, next) && Ordered(snapshot)
    requires forall i :: 0 <= i < |snapshot| ==> snapshot[i] in s.active
    ensures Shape(l, PruneActive(l, snapshot, s, now), next)
    ensures forall c :: c in PruneActive(l, snapshot, s, now).active <==>
              c in s.active && !(c in snapshot && c.expiresAt <= now)
    decreases |snapshot|
  {
    if snapshot != [] {
      assert snapshot == [snapshot[0]] + snapshot[1..];
      var c := snapshot[0];
      if c.expiresAt <= now {
        DropKeeps(l, s, c, next);
        PruneActiveKeeps(l, snapshot[1..], Drop(l, s, c), now, next);
      } else {
        PruneActiveKeeps(l, snapshot[1..], s, now, next);
      }
    }
  }

  lemma {:induction false} PruneTombsIsFilter(l: Limits, expired: seq<Tomb>, now: Instant)
    requires DistinctTombs(expired)
    ensures DistinctTombs(PruneTombs(l, expired, now))
    ensures forall t <- PruneTombs(l, expired, now) :: t in expired
    decreases |expired|
  {
    if expired != [] {
      PruneTombsIsFilter(l, expired[1..], now);
      var r := PruneTombs(l, expired, now);
      var tail := PruneTombs(l, expired[1..], now);
      if !(expired[0].expiresAt + l.ttl < now) {
        forall j | 0 < j < |r|
          ensures r[0].id != r[j].id
        {
          assert r[j] == tail[j - 1] && tail[j - 1] in expired[1..];
          var k :| 0 <= k < |expired[1..]| && expired[1..][k] == r[j];
          assert expired[k + 1] == r[j];
        }
        assert forall i, j :: 1 <= i < j < |r| ==> r[i] == tail[i - 1] && r[j] == tail[j - 1];
      }
    }
  }

  /** Pruning removes exactly the challenges whose deadline has passed. */
  lemma PruneKeeps(l: Limits, s: Store, now: Instant, next: Uuid)
    requires l.Accepted() && Shape(l, s, next)
    ensures Shape(l, Prune(l, s, now), next)
    ensures |Prune(l, s, now).active| <= |s.active|
    ensures forall c :: c in Prune(l, s, now).active <==> c in s.active && c.expiresAt > now
  {
    PruneActiveKeeps(l, s.active, s, now, next);
    var t := PruneActive(l, s.active, s, now);
    PruneTombsIsFilter(l, t.expired, now);
    var r := Prune(l, s, now);
    forall j | 0 <= j < |r.expired|
      ensures exists k :: 0 <= k < |t.expired| && t.expired[k] == r.expired[j]
    {
      assert r.expired[j] in r.expired;
    }
    PruneShrinks(l, s.active, s, now);
  }

  lemma {:induction false} PruneShrinks(l: Limits, snapshot: seq<Challenge>, s: Store, now: Instant)
    ensures |PruneActive(l, snapshot, s, now).active| <= |s.active|
    decreases |snapshot|
  {
    if snapshot != [] {
      if snapshot[0].expiresAt <= now {
        PruneShrinks(l, snapshot[1..], Store(Without(s.active, snapshot[0].id), Remember(l, s.expired, snapshot[0])),
            now);
      } else {
        PruneShrinks(l, snapshot[1..], s, now);
      }
    }
  }

  /** Eviction keeps the newest challenges, up to capacity. */
  lemma {:induction false} EvictIsSuffix(l: Limits, s: Store)
    requires l.Accepted()
    ensures Evict(l, s).active == if |s.active| <= l.capacity then s.active else s.active[|s.active| - l.capacity..]
    decreases |s.active|
  {
    if |s.active| > l.capacity {
      EvictIsSuffix(l, Store(s.active[1..], Remember(l, s.expired, s.active[0])));
      var n := |s.active| - 1 - l.capacity;
      assert s.active[1..][n..] == s.active[n + 1..];
    }
  }

  lemma {:induction false} EvictKeeps(l: Limits, s: Store, next: Uuid)
    requires l.Accepted() && Shape(l, s, next)
    ensures Shape(l, Evict(l, s), next)
    decreases |s.active|
  {
    if |s.active| > l.capacity {
      WithoutAt(s.active, 0);
      DropKeeps(l, s, s.active[0], next);
      assert Drop(l, s, s.active[0]).active == s.active[1..];
      EvictKeeps(l, Drop(l, s, s.active[0]), next);
    }
  }

  /** What a suffix of an ordered sequence leaves out expires no later than what it keeps. */
  lemma SuffixExpiresLater(active: seq<Challenge>, n: nat, c: Challenge, d: Challenge)
    requires Ordered(active) && n <= |active| && c in active && c !in active[n..] && d in active[n..]
    ensures c.expiresAt <= d.expiresAt
  {
    assert active == active[..n] + active[n..];
    var i :| 0 <= i < |active[..n]| && active[..n][i] == c;
    var j :| 0 <= j < |active[n..]| && active[n..][j] == d;
    assert active[i] == c && active[n + j] == d;
  }

  /** Replacing by id is updating the one position with that id. */
  lemma ReplaceAt(active: seq<Challenge>, k: nat, d: Challenge)
    requires Ordered(active) && k < |active| && active[k].id == d.id && active[k].expiresAt == d.expiresAt
    ensures Replace(active, d) == active[k := d]
    ensures Ordered(active[k := d])
  {
    forall i | 0 <= i < |active|
      ensures Replace(active, d)[i] == active[k := d][i]
    {
      assert i < k ==> active[i].id != active[k].id;
      assert k < i ==> active[k].id != active[i].id;
    }
  }

  lemma UpdatedMembers(active: seq<Challenge>, k: nat, d: Challenge)
    requires Ordered(active) && k < |active|
    ensures forall x :: x in active[k := d] <==> x == d || (x in active && x != active[k])
  {
    assert active[k := d] == active[..k] + [d] + active[k + 1..];
    assert active == active[..k] + [active[k]] + active[k + 1..];
    assert forall i :: 0 <= i < |active| && i != k ==> active[i].id != active[k].id;
  }

  lemma ReplaceKeeps(l: Limits, s: Store, c: Challenge, d: Challenge, next: Uuid)
    requires Shape(l, s, next) && c in s.active && d.id == c.id && d.expiresAt == c.expiresAt
    ensures Shape(l, s.(active := Replace(s.active, d)), next)
    ensures forall x :: x in Replace(s.active, d) <==> x == d || (x in s.active && x != c)
  {
    var k :| 0 <= k < |s.active| && s.active[k] == c;
    ReplaceAt(s.active, k, d);
    UpdatedMembers(s.active, k, d);
  }

  lemma AppendKeeps(l: Limits, s: Store, made: Challenge)
    requires Shape(l, s, made.id) && forall c <- s.active :: c.expiresAt <= made.expiresAt
    ensures Shape(l, s.(active := s.active + [made]), made.id + 1)
  {
    forall i | 0 <= i < |s.active|
      ensures s.active[i].expiresAt <= made.expiresAt
    {
      assert s.active[i] in s.active;
    }
  }

  function Made(l: Limits, id: Uuid, owner: Uuid, later: Instant): Challenge {
    Challenge(id, later + l.ttl, owner, true, None, CodeSent)
  }

  /** The store just before the newest challenge may push out old ones. */
  function Filled(l: Limits, s: Store, id: Uuid, owner: Uuid, now: Instant, later: Instant): Store {
    var pruned := Prune(l, s, now);
    pruned.(active := pruned.active + [Made(l, id, owner, later)])
  }

  lemma FilledShape(l: Limits, s: Store, id: Uuid, owner: Uuid, now: Instant, later: Instant)
    requires l.Accepted() && Shape(l, s, id) && now <= later
    requires forall c <- s.active :: c.expiresAt <= later + l.ttl
    ensures Shape(l, Filled(l, s, id, owner, now, later), id + 1)
    ensures forall c :: c in Filled(l, s, id, owner, now, later).active <==>
              c == Made(l, id, owner, later) || (c in s.active && c.expiresAt > now)
  {
    PruneKeeps(l, s, now, id);
    var pruned := Prune(l, s, now);
    assert forall c <- pruned.active :: c in s.active;
    AppendKeeps(l, pruned, Made(l, id, owner, later));
  }

  /** Creating: the new challenge is in, the bound holds, and everything else was there and live. */
  lemma CreateKeeps(l: Limits, s: Store, id: Uuid, owner: Uuid, now: Instant, later: Instant)
    requires l.Accepted() && Shape(l, s, id) && now <= later
    requires forall c <- s.active :: c.expiresAt <= later + l.ttl
    ensures
      var t := Create(l, s, id, owner, now, later).0;
      var made := Made(l, id, owner, later);
      && Shape(l, t, id + 1) && |t.active| <= l.capacity && made in t.active
      && (forall c <- t.active :: c == made || (c in s.active && c.expiresAt > now))
  {
    var full := Filled(l, s, id, owner, now, later);
    FilledShape(l, s, id, owner, now, later);
    EvictKeeps(l, full, id + 1);
    EvictIsSuffix(l, full);
    var t := Evict(l, full);
    assert t.active[|t.active| - 1] == full.active[|full.active| - 1];
    forall c | c in t.active
      ensures c in full.active
    {
    }
  }

  /** What was evicted expires no later than what stays. */
  lemma CreateEvictsEarliest(l: Limits, s: Store, id: Uuid, owner: Uuid, now: Instant, later: Instant,
                             c: Challenge, d: Challenge)
    requires l.Accepted() && Shape(l, s, id) && now <= later
    requires forall c <- s.active :: c.expiresAt <= later + l.ttl
    requires var t := Create(l, s, id, owner, now, later).0;
             c in s.active && c.expiresAt > now && c !in t.active && d in t.active
    ensures c.expiresAt <= d.expiresAt
  {
    var full := Filled(l, s, id, owner, now, later);
    FilledShape(l, s, id, owner, now, later);
    EvictIsSuffix(l, full);
    assert c in full.active;
    SuffixExpiresLater(full.active, |full.active| - |Evict(l, full).active|, c, d);
  }
}
