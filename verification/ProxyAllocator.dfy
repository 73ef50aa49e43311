/** The least element of a set, for queries that order by key and take the first row. */
module LeastKey {

  predicate IsLeast(s: set<nat>, p: nat) {
    p in s && forall q <- s :: p <= q
  }

  lemma {:induction false} FindLeast(s: set<nat>) returns (p: nat)
    requires s != {}
    ensures IsLeast(s, p)
    decreases |s|
  {
    var x :| x in s;
    var rest := s - {x};
    if rest == {} {
      assert s == {x};
      p := x;
    } else {
      var least := FindLeast(rest);
      p := if x < least then x else least;
      forall q | q in s
        ensures p <= q
      {
        assert q == x || q in rest;
      }
    }
  }

  function Least(s: set<nat>): (p: nat)
    requires s != {}
    ensures IsLeast(s, p)
  {
    assert exists p :: p in s && IsLeast(s, p) by {
      var p := FindLeast(s);
    }
    var p :| p in s && IsLeast(s, p);
    p
  }
}

/** Proxy assignment over database tables (postgres_state.py): capacities, one default per
    organization scope, per-account overrides with revisions, and fenced cleanup.

    Each operation is one transaction; any serialization of them is a run. */
module ProxyAllocator {
  import opened Common
  import opened LeastKey

  /** The range that a proxy configuration validates. */
  type Capacity = c: nat | 1 <= c <= 5 witness 1

  /** A proxy belongs to an organization, or is global. */
  datatype Proxy = Proxy(organization: Option<Uuid>, capacity: Capacity, isDefault: bool)

  datatype Override = Override(proxy: Option<Uuid>, revision: nat)

  datatype Assignment = Assignment(proxy: Uuid, id: Uuid, revision: nat)

  datatype Reservation = Reservation(proxy: Uuid, newlyReserved: bool, accountOverride: bool, assignmentId: Uuid,
                                     revision: nat)

  /** The tables, and a supply of assignment ids that are never drawn twice. */
  datatype Tables = Tables(
    proxies: map<Uuid, Proxy>,
    accounts: map<Uuid, Uuid>,
    overrides: map<Uuid, Override>,
    assignments: map<Uuid, Assignment>,
    nextId: Uuid)

  function Holders(assignments: map<Uuid, Assignment>, proxy: Uuid): set<Uuid> {
    set a | a in assignments && assignments[a].proxy == proxy
  }

  function Assigned(assignments: map<Uuid, Assignment>, proxy: Uuid): nat {
    |Holders(assignments, proxy)|
  }

  function OverrideOf(t: Tables, account: Uuid): Override {
    if account in t.overrides then t.overrides[account] else Override(None, 0)
  }

  /** The account's organization may use the proxy. */
  predicate Visible(t: Tables, organization: Uuid, proxy: Uuid) {
    proxy in t.proxies && (t.proxies[proxy].organization == Some(organization) || t.proxies[proxy].organization.None?)
  }

  // ---- operations; None stands for a ValueError, which rolls back ----

  function PutAccount(t: Tables, account: Uuid, organization: Uuid): Tables {
    t.(accounts := t.accounts[account := organization])
  }

  function PutProxy(t: Tables, id: Uuid, capacity: Capacity, isDefault: bool, organization: Option<Uuid>)
    : Option<Tables>
  {
    if id in t.proxies && t.proxies[id].organization != organization then None
    else if id in t.proxies && Assigned(t.assignments, id) > capacity then None
    else
      var others := map p | p in t.proxies ::
        if isDefault && p != id && t.proxies[p].organization == organization
        then t.proxies[p].(isDefault := false) else t.proxies[p];
      Some(t.(proxies := others[id := Proxy(organization, capacity, isDefault)]))
  }

  function SetOverride(t: Tables, account: Uuid, proxy: Option<Uuid>): Option<Tables>
  {
    if account !in t.accounts then None
    else if proxy.Some? && !Visible(t, t.accounts[account], proxy.value) then None
    else Some(t.(overrides := t.overrides[account := Override(proxy, OverrideOf(t, account).revision + 1)]))
  }

  function Defaults(t: Tables, organization: Option<Uuid>): set<Uuid> {
    set p | p in t.proxies && DefaultFor(t.proxies, p, organization)
  }

  /** The override if there is one and it is visible; else the organization's default, else a global
      default, in the order of the query. */
  function Selected(t: Tables, account: Uuid): (r: Option<Uuid>)
    requires account in t.accounts
    ensures r.Some? ==> Visible(t, t.accounts[account], r.value)
  {
    var organization := t.accounts[account];
    var over := OverrideOf(t, account).proxy;
    if over.Some? then (if Visible(t, organization, over.value) then over else None)
    else if Defaults(t, Some(organization)) != {} then Some(Least(Defaults(t, Some(organization))))
    else if Defaults(t, None) != {} then Some(Least(Defaults(t, None)))
    else None
  }

  /** The account already holds the proxy under the current override revision. */
  predicate Current(t: Tables, account: Uuid, proxy: Uuid) {
    && account in t.assignments
    && t.assignments[account].proxy == proxy && t.assignments[account].revision == OverrideOf(t, account).revision
  }

  /** Other accounts use up the proxy. */
  predicate Full(t: Tables, account: Uuid, proxy: Uuid)
    requires proxy in t.proxies
  {
    |Holders(t.assignments, proxy) - {account}| >= t.proxies[proxy].capacity
  }

  /** A new assignment of the account, replacing the one it had. */
  function Assign(t: Tables, account: Uuid, proxy: Uuid): Tables {
    t.(assignments := t.assignments[account := Assignment(proxy, t.nextId, OverrideOf(t, account).revision)],
        nextId := t.nextId + 1)
  }

  /** The part of `reserve` after the proxy row has been locked. */
  function ReserveOn(t: Tables, account: Uuid, proxy: Uuid): (Tables, Option<Reservation>)
    requires proxy in t.proxies
  {
    var over := OverrideOf(t, account);
    if Current(t, account, proxy) then
      (t, Some(Reservation(proxy, false, over.proxy.Some?, t.assignments[account].id, over.revision)))
    else if Full(t, account, proxy) then
      (t, None)
    else
      (Assign(t, account, proxy), Some(Reservation(proxy, true, over.proxy.Some?, t.nextId, over.revision)))
  }

  function Reserve(t: Tables, account: Uuid): (Tables, Option<Reservation>)
  {
    if account !in t.accounts || Selected(t, account).None? then (t, None)
    else ReserveOn(t, account, Selected(t, account).value)
  }

  function ReleaseFailed(t: Tables, account: Uuid, r: Reservation): Tables
  {
    if !r.newlyReserved || r.accountOverride then t
    else if OverrideOf(t, account).proxy.Some? || OverrideOf(t, account).revision != r.revision then t
    else if account in t.assignments && t.assignments[account] == Assignment(r.proxy, r.assignmentId, r.revision) then
      t.(assignments := t.assignments - {account})
    else t
  }

  function ReleaseTerminal(t: Tables, account: Uuid): Tables
  {
    if OverrideOf(t, account).proxy.None? then t.(assignments := t.assignments - {account}) else t
  }

  datatype Event =
    | AccountPut(account: Uuid, organization: Uuid)
    | ProxyPut(proxy: Uuid, capacity: Capacity, isDefault: bool, scope: Option<Uuid>)
    | OverrideSet(account: Uuid, choice: Option<Uuid>)
    | Reserved(account: Uuid)
    | FailedReleased(account: Uuid, reservation: Reservation)
    | TerminalReleased(account: Uuid)

  function Step(t: Tables, e: Event): Tables {
    match e
    case AccountPut(a, o) => PutAccount(t, a, o)
    case ProxyPut(p, c, d, o) => (match PutProxy(t, p, c, d, o) case None => t case Some(t') => t')
    case OverrideSet(a, p) => (match SetOverride(t, a, p) case None => t case Some(t') => t')
    case Reserved(a) => Reserve(t, a).0
    case FailedReleased(a, r) => ReleaseFailed(t, a, r)
    case TerminalReleased(a) => ReleaseTerminal(t, a)
  }

  function Run(t: Tables, events: seq<Event>): Tables
    decreases |events|
  {
    if events == [] then t else Run(Step(t, events[0]), events[1..])
  }

  const EMPTY := Tables(map[], map[], map[], map[], 0)

  // ---- invariant ----

  /** Assignment ids are unique and already drawn. */
  ghost predicate IdsInv(assignments: map<Uuid, Assignment>, nextId: Uuid) {
    && (forall a <- assignments :: assignments[a].id < nextId)
    && (forall a, b :: a in assignments && b in assignments && a != b ==> assignments[a].id != assignments[b].id)
  }

  /** Assignments are on known proxies, and no proxy is over capacity. */
  ghost predicate CapacityInv(proxies: map<Uuid, Proxy>, assignments: map<Uuid, Assignment>) {
    && (forall a <- assignments :: assignments[a].proxy in proxies)
    && (forall p <- proxies :: Assigned(assignments, p) <= proxies[p].capacity)
  }

  predicate DefaultFor(proxies: map<Uuid, Proxy>, p: Uuid, organization: Option<Uuid>) {
    p in proxies && proxies[p].isDefault && proxies[p].organization == organization
  }

  ghost predicate DefaultsInv(proxies: map<Uuid, Proxy>) {
    forall p, q, o :: DefaultFor(proxies, p, o) && DefaultFor(proxies, q, o) ==> p == q
  }

  ghost predicate Inv(t: Tables) {
    IdsInv(t.assignments, t.nextId) && CapacityInv(t.proxies, t.assignments) && DefaultsInv(t.proxies)
  }

  lemma HoldersAfterPut(assignments: map<Uuid, Assignment>, account: Uuid, x: Assignment, proxy: Uuid)
    ensures Assigned(assignments[account := x], proxy)
         == |Holders(assignments, proxy) - {account}| + (if x.proxy == proxy then 1 else 0)
  {
    var rest := Holders(assignments, proxy) - {account};
    assert Holders(assignments[account := x], proxy) == if x.proxy == proxy then rest + {account} else rest;
  }

  lemma FewerHolders(s: set<Uuid>, account: Uuid)
    ensures |s - {account}| <= |s|
  {
    if account in s {
      assert s == (s - {account}) + {account};
    } else {
      assert s - {account} == s;
    }
  }

  lemma HoldersAfterRemove(assignments: map<Uuid, Assignment>, account: Uuid, proxy: Uuid)
    ensures Assigned(assignments - {account}, proxy) <= Assigned(assignments, proxy)
  {
    assert Holders(assignments - {account}, proxy) == Holders(assignments, proxy) - {account};
    FewerHolders(Holders(assignments, proxy), account);
  }

  lemma NoHolders(t: Tables, proxy: Uuid)
    requires Inv(t) && proxy !in t.proxies
    ensures Assigned(t.assignments, proxy) == 0
  {
    assert Holders(t.assignments, proxy) == {};
  }

  lemma AssignKeepsCapacity(t: Tables, account: Uuid, x: Assignment)
    requires CapacityInv(t.proxies, t.assignments) && x.proxy in t.proxies && !Full(t, account, x.proxy)
    ensures CapacityInv(t.proxies, t.assignments[account := x])
  {
    forall p | p in t.proxies
      ensures Assigned(t.assignments[account := x], p) <= t.proxies[p].capacity
    {
      HoldersAfterPut(t.assignments, account, x, p);
      FewerHolders(Holders(t.assignments, p), account);
    }
  }

  lemma AssignKeepsIds(assignments: map<Uuid, Assignment>, nextId: Uuid, account: Uuid, x: Assignment)
    requires IdsInv(assignments, nextId) && x.id == nextId
    ensures IdsInv(assignments[account := x], nextId + 1)
  {
  }

  lemma AssignKeepsInv(t: Tables, account: Uuid, proxy: Uuid)
    requires Inv(t) && proxy in t.proxies && !Full(t, account, proxy)
    ensures Inv(Assign(t, account, proxy))
  {
    var x := Assignment(proxy, t.nextId, OverrideOf(t, account).revision);
    AssignKeepsCapacity(t, account, x);
    AssignKeepsIds(t.assignments, t.nextId, account, x);
    hide CapacityInv, IdsInv, DefaultsInv, Full;
  }

  lemma ReserveKeepsInv(t: Tables, account: Uuid)
    requires Inv(t)
    ensures Inv(Reserve(t, account).0)
  {
    if account in t.accounts && Selected(t, account).Some? {
      var proxy := Selected(t, account).value;
      if !Current(t, account, proxy) && !Full(t, account, proxy) {
        AssignKeepsInv(t, account, proxy);
      }
    }
  }

  lemma RemoveKeepsInv(t: Tables, account: Uuid)
    requires Inv(t)
    ensures Inv(t.(assignments := t.assignments - {account}))
  {
    forall p | p in t.proxies
      ensures Assigned(t.assignments - {account}, p) <= t.proxies[p].capacity
    {
      HoldersAfterRemove(t.assignments, account, p);
    }
  }

  lemma PutProxyKeepsInv(t: Tables, id: Uuid, capacity: Capacity, isDefault: bool, scope: Option<Uuid>)
    requires Inv(t) && PutProxy(t, id, capacity, isDefault, scope).Some?
    ensures Inv(PutProxy(t, id, capacity, isDefault, scope).value)
  {
    if id !in t.proxies {
      NoHolders(t, id);
    }
    var after := PutProxy(t, id, capacity, isDefault, scope).value.proxies;
    forall p, q, o | DefaultFor(after, p, o) && DefaultFor(after, q, o)
      ensures p == q
    {
      assert p != id ==> DefaultFor(t.proxies, p, o);
      assert q != id ==> DefaultFor(t.proxies, q, o);
    }
  }

  lemma StepKeepsInv(t: Tables, e: Event)
    requires Inv(t)
    ensures Inv(Step(t, e))
  {
    if e.Reserved? {
      ReserveKeepsInv(t, e.account);
    } else if e.ProxyPut? {
      if PutProxy(t, e.proxy, e.capacity, e.isDefault, e.scope).Some? {
        PutProxyKeepsInv(t, e.proxy, e.capacity, e.isDefault, e.scope);
      }
    } else if e.FailedReleased? || e.TerminalReleased? {
      RemoveKeepsInv(t, e.account);
    }
  }

  /** After any serialization of operations no proxy is over its current capacity, and every
      organization scope has at most one default. */
  lemma {:induction false} CapacityAndDefaults(t: Tables, events: seq<Event>)
    requires Inv(t)
    ensures
      var u := Run(t, events);
      && Inv(u)
      && (forall p <- u.proxies :: Assigned(u.assignments, p) <= u.proxies[p].capacity)
      && (forall o, p, q :: p in Defaults(u, o) && q in Defaults(u, o) ==> p == q)
    decreases |events|
  {
    if events != [] {
      StepKeepsInv(t, events[0]);
      CapacityAndDefaults(Step(t, events[0]), events[1..]);
    }
  }

  lemma EmptyInv()
    ensures Inv(EMPTY)
  {
  }

  // ---- reservations ----

  lemma GrantIsStored(t: Tables, account: Uuid, proxy: Uuid)
    requires proxy in t.proxies
    ensures
      var (t', r) := ReserveOn(t, account, proxy);
      && (r.None? ==> t' == t)
      && (r.None? <==> !Current(t, account, proxy) && Full(t, account, proxy))
      && (r.Some? ==>
            && r.value.proxy == proxy
            && account in t'.assignments
            && t'.assignments[account] == Assignment(proxy, r.value.assignmentId, r.value.revision)
            && r.value.revision == OverrideOf(t, account).revision
            && (r.value.newlyReserved <==> !Current(t, account, proxy))
            && t'.assignments - {account} == t.assignments - {account})
  {
  }

  /** A granted reservation is the assignment that is now stored, on a proxy of the account's own
      organization or a global one; everyone else's assignment is untouched. A refusal changes nothing
      and means that nothing is selected or the selected proxy is used up by others. */
  lemma ReservationIsStoredAndVisible(t: Tables, account: Uuid)
    requires Inv(t) && account in t.accounts
    ensures
      var (t', r) := Reserve(t, account);
      && (r.None? ==> t' == t)
      && (r.None? <==> Selected(t, account).None?
                       || (!Current(t, account, Selected(t, account).value) &&
                           Full(t, account, Selected(t, account).value)))
      && (r.Some? ==>
            && Visible(t, t.accounts[account], r.value.proxy)
            && account in t'.assignments
            && t'.assignments[account] == Assignment(r.value.proxy, r.value.assignmentId, r.value.revision)
            && r.value.revision == OverrideOf(t, account).revision
            && (r.value.newlyReserved <==> !Current(t, account, r.value.proxy))
            && t'.assignments - {account} == t.assignments - {account})
  {
    hide Inv;
    if Selected(t, account).Some? {
      GrantIsStored(t, account, Selected(t, account).value);
    }
  }

  // ---- which proxy ----

  /** The account's override and its revision; without a row there is none, at revision 0. */
  function Choice(t: Tables, account: Uuid): (Option<Uuid>, nat) {
    if account in t.overrides then (t.overrides[account].proxy, t.overrides[account].revision) else (None, 0)
  }

  /** The proxy is the one that the account is to use: the override if there is one, provided that the proxy is the
      organization's own or global; else the default of the organization; else, if it has none, the global default. */
  predicate ToUse(t: Tables, account: Uuid, proxy: Uuid)
    requires account in t.accounts
  {
    var organization := t.accounts[account];
    var choice := Choice(t, account).0;
    && proxy in t.proxies
    && if choice.Some? then
         && proxy == choice.value
         && (t.proxies[proxy].organization == Some(organization) || t.proxies[proxy].organization == None)
       else
         && t.proxies[proxy].isDefault
         && (|| t.proxies[proxy].organization == Some(organization)
             || (t.proxies[proxy].organization == None
                 && forall p <- t.proxies ::
                      !(t.proxies[p].isDefault && t.proxies[p].organization == Some(organization))))
  }

  lemma ReachableTables(events: seq<Event>)
    ensures Inv(Run(EMPTY, events))
  {
    EmptyInv();
    CapacityAndDefaults(EMPTY, events);
  }

  /** In every reachable state there is at most one proxy that an account is to use. */
  lemma OneProxyToUse(events: seq<Event>, account: Uuid, p: Uuid, q: Uuid)
    requires account in Run(EMPTY, events).accounts
    requires ToUse(Run(EMPTY, events), account, p) && ToUse(Run(EMPTY, events), account, q)
    ensures p == q
  {
    var t := Run(EMPTY, events);
    ReachableTables(events);
    assert Choice(t, account).0.None? ==>
        DefaultFor(t.proxies, p, t.proxies[p].organization) && DefaultFor(t.proxies, q, t.proxies[q].organization);
  }

  lemma SelectsToUse(t: Tables, account: Uuid, proxy: Uuid)
    requires Inv(t) && account in t.accounts && ToUse(t, account, proxy)
    ensures Selected(t, account) == Some(proxy)
  {
    if Choice(t, account).0.None? {
      var scope := t.proxies[proxy].organization;
      assert proxy in Defaults(t, scope);
      assert Least(Defaults(t, scope)) in Defaults(t, scope);
      assert scope.None? ==> forall p :: p !in Defaults(t, Some(t.accounts[account]));
      assert forall p <- Defaults(t, scope) :: DefaultFor(t.proxies, p, scope);
    }
  }

  lemma SelectsOnlyToUse(t: Tables, account: Uuid)
    requires account in t.accounts && Selected(t, account).Some?
    ensures ToUse(t, account, Selected(t, account).value)
  {
    var proxy := Selected(t, account).value;
    if Choice(t, account).0.None? {
      var own := Defaults(t, Some(t.accounts[account]));
      if own == {} {
        forall p | p in t.proxies
          ensures !(t.proxies[p].isDefault && t.proxies[p].organization == Some(t.accounts[account]))
        {
          assert p !in own;
        }
      }
    }
  }

  /** The account holds the proxy under its present revision. */
  predicate HoldsNow(t: Tables, account: Uuid, proxy: Uuid) {
    && account in t.assignments
    && t.assignments[account].proxy == proxy && t.assignments[account].revision == Choice(t, account).1
  }

  /** How many other accounts are assigned to the proxy. */
  function Others(t: Tables, account: Uuid, proxy: Uuid): nat {
    |set a | a in t.assignments && a != account && t.assignments[a].proxy == proxy|
  }

  /** A reservation, in every reachable state: on the proxy to use. What the account holds under its present revision
      is handed back as it is; otherwise the capacity decides, and the new assignment, under a fresh id, replaces the
      account's old one and touches no other. */
  lemma ReservesTheProxyToUse(events: seq<Event>, account: Uuid, proxy: Uuid)
    requires var t := Run(EMPTY, events); account in t.accounts && ToUse(t, account, proxy)
    ensures
      var t := Run(EMPTY, events);
      var (choice, revision) := Choice(t, account);
      var (t', r) := Reserve(t, account);
      if HoldsNow(t, account, proxy) then
        t' == t && r == Some(Reservation(proxy, false, choice.Some?, t.assignments[account].id, revision))
      else if Others(t, account, proxy) >= t.proxies[proxy].capacity then t' == t && r == None
      else
        && r.Some? && r.value == Reservation(proxy, true, choice.Some?, r.value.assignmentId, revision)
        && (forall a <- t.assignments :: t.assignments[a].id != r.value.assignmentId)
        && t'.assignments == t.assignments[account := Assignment(proxy, r.value.assignmentId, revision)]
        && t'.proxies == t.proxies && t'.accounts == t.accounts && t'.overrides == t.overrides
  {
    var t := Run(EMPTY, events);
    ReachableTables(events);
    SelectsToUse(t, account, proxy);
    assert IdsInv(t.assignments, t.nextId);
    hide Run, ToUse, Inv, IdsInv, Selected, ReserveOn, Choice, HoldsNow, Others;
    ReservesOnIt(t, account, proxy);
  }

  lemma ReservesOnIt(t: Tables, account: Uuid, proxy: Uuid)
    requires IdsInv(t.assignments, t.nextId) && proxy in t.proxies
    ensures
      var (choice, revision) := Choice(t, account);
      var (t', r) := ReserveOn(t, account, proxy);
      if HoldsNow(t, account, proxy) then
        t' == t && r == Some(Reservation(proxy, false, choice.Some?, t.assignments[account].id, revision))
      else if Others(t, account, proxy) >= t.proxies[proxy].capacity then t' == t && r == None
      else
        && r.Some? && r.value == Reservation(proxy, true, choice.Some?, r.value.assignmentId, revision)
        && (forall a <- t.assignments :: t.assignments[a].id != r.value.assignmentId)
        && t'.assignments == t.assignments[account := Assignment(proxy, r.value.assignmentId, revision)]
        && t'.proxies == t.proxies && t'.accounts == t.accounts && t'.overrides == t.overrides
  {
    assert Holders(t.assignments, proxy) - {account}
        == set a | a in t.assignments && a != account && t.assignments[a].proxy == proxy;
  }

  /** Without a proxy to use, or for an unknown account, nothing is reserved. */
  lemma ReservesNothingElse(t: Tables, account: Uuid)
    requires account in t.accounts ==> forall p <- t.proxies :: !ToUse(t, account, p)
    ensures Reserve(t, account) == (t, None)
  {
    if account in t.accounts && Selected(t, account).Some? {
      SelectsOnlyToUse(t, account);
    }
  }

  /** A failed start undoes its new reservation, if the account had no override; a terminal account gives up its
      assignment, if it has none. */
  lemma CleanupUndoesTheReservation(t: Tables, account: Uuid)
    requires Reserve(t, account).1.Some?
    ensures
      var (t', reserved) := Reserve(t, account);
      var r := reserved.value;
      && Run(t', [FailedReleased(account, r)]).assignments ==
         (if r.newlyReserved && Choice(t, account).0.None? then t.assignments - {account} else t'.assignments)
      && Run(t, [TerminalReleased(account)]).assignments ==
         (if Choice(t, account).0.None? then t.assignments - {account} else t.assignments)
  {
    hide Full, Selected;
    var (t', reserved) := Reserve(t, account);
    assert Run(t', [FailedReleased(account, reserved.value)]) == Step(t', FailedReleased(account, reserved.value));
    assert Run(t, [TerminalReleased(account)]) == Step(t, TerminalReleased(account));
  }

  // ---- cleanup ----

  /** An assignment with the reservation's id can only be the one the reservation created. */
  ghost predicate Created(t: Tables, account: Uuid, r: Reservation) {
    && r.assignmentId < t.nextId
    && forall a <- t.assignments :: t.assignments[a].id == r.assignmentId ==>
         a == account && t.assignments[a] == Assignment(r.proxy, r.assignmentId, r.revision)
  }

  predicate ChangesOverride(t: Tables, e: Event, account: Uuid) {
    e.OverrideSet? && e.account == account && SetOverride(t, account, e.choice).Some?
  }

  /** Some event of the run sets or clears the account's override. */
  predicate Intervenes(t: Tables, events: seq<Event>, account: Uuid)
    decreases |events|
  {
    events != [] && (ChangesOverride(t, events[0], account) || Intervenes(Step(t, events[0]), events[1..], account))
  }

  lemma ReserveKeepsCreated(t: Tables, other: Uuid, account: Uuid, r: Reservation)
    requires Created(t, account, r)
    ensures Created(Reserve(t, other).0, account, r) && Reserve(t, other).0.overrides == t.overrides
  {
  }

  lemma StepKeepsCreated(t: Tables, e: Event, account: Uuid, r: Reservation)
    requires Created(t, account, r)
    ensures Created(Step(t, e), account, r)
    ensures OverrideOf(Step(t, e), account).revision >= OverrideOf(t, account).revision
    ensures ChangesOverride(t, e, account) ==>
      OverrideOf(Step(t, e), account).revision > OverrideOf(t, account).revision
  {
    if e.Reserved? {
      ReserveKeepsCreated(t, e.account, account, r);
    }
  }

  lemma {:induction false} RunKeepsCreated(t: Tables, events: seq<Event>, account: Uuid, r: Reservation)
    requires Inv(t) && Created(t, account, r) && OverrideOf(t, account).revision >= r.revision
    ensures
      var u := Run(t, events);
      && Inv(u) && Created(u, account, r)
      && OverrideOf(u, account).revision >= OverrideOf(t, account).revision
      && (Intervenes(t, events, account) ==> OverrideOf(u, account).revision > OverrideOf(t, account).revision)
    decreases |events|
  {
    if events != [] {
      StepKeepsInv(t, events[0]);
      StepKeepsCreated(t, events[0], account, r);
      RunKeepsCreated(Step(t, events[0]), events[1..], account, r);
    }
  }

  /** Cleanup after a failed start, however late: it removes at most the assignment that its own
      reservation created, and nothing at all once an override of the account intervened. */
  lemma CleanupRemovesOnlyItsOwn(t: Tables, account: Uuid, events: seq<Event>)
    requires Inv(t) && Reserve(t, account).1.Some? && Reserve(t, account).1.value.newlyReserved
    ensures
      var (t0, reserved) := Reserve(t, account);
      var r := reserved.value;
      var u := Run(t0, events);
      var v := ReleaseFailed(u, account, r);
      && (v == u || (v == u.(assignments := u.assignments - {account})
                     && account in u.assignments && u.assignments[account] == t0.assignments[account]))
      && (forall a <- v.assignments :: v.assignments[a].id != r.assignmentId || v == u)
      && (Intervenes(t0, events, account) ==> v == u)
  {
    var (t0, reserved) := Reserve(t, account);
    var r := reserved.value;
    ReserveKeepsInv(t, account);
    NewReservationIsCreated(t, account);
    hide Inv, Reserve, Run, Intervenes;
    RunKeepsCreated(t0, events, account, r);
    CleanupOfCreated(Run(t0, events), account, r);
  }

  lemma NewGrantIsCreated(t: Tables, account: Uuid, proxy: Uuid)
    requires IdsInv(t.assignments, t.nextId) && proxy in t.proxies
    requires ReserveOn(t, account, proxy).1.Some? && ReserveOn(t, account, proxy).1.value.newlyReserved
    ensures
      var (t0, reserved) := ReserveOn(t, account, proxy);
      var r := reserved.value;
      && Created(t0, account, r) && OverrideOf(t0, account).revision == r.revision
      && account in t0.assignments && t0.assignments[account] == Assignment(r.proxy, r.assignmentId, r.revision)
  {
    hide Full;
  }

  lemma NewReservationIsCreated(t: Tables, account: Uuid)
    requires Inv(t) && Reserve(t, account).1.Some? && Reserve(t, account).1.value.newlyReserved
    ensures
      var (t0, reserved) := Reserve(t, account);
      var r := reserved.value;
      && Created(t0, account, r) && OverrideOf(t0, account).revision == r.revision
      && account in t0.assignments && t0.assignments[account] == Assignment(r.proxy, r.assignmentId, r.revision)
  {
    assert IdsInv(t.assignments, t.nextId);
    hide Inv, ReserveOn, IdsInv, Created;
    NewGrantIsCreated(t, account, Selected(t, account).value);
  }

  lemma CleanupOfCreated(u: Tables, account: Uuid, r: Reservation)
    requires Created(u, account, r)
    ensures
      var v := ReleaseFailed(u, account, r);
      && (v == u || (v == u.(assignments := u.assignments - {account})
                     && account in u.assignments
                     && u.assignments[account] == Assignment(r.proxy, r.assignmentId, r.revision)))
      && (forall a <- v.assignments :: v.assignments[a].id != r.assignmentId || v == u)
      && (OverrideOf(u, account).revision > r.revision ==> v == u)
  {
  }
}
