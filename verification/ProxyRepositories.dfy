/** The two proxy assignment repositories as objects. */
module ProxyRepositories {
  import opened Common
  import opened ProxyAllocator

  /** Each method is one transaction over the tables. */
  class SqlAlchemyProxyAssignmentRepository {
    var tables: Tables

    constructor ()
      ensures tables == EMPTY && Inv(tables)
    {
      tables := EMPTY;
      new;
      EmptyInv();
    }

    method PutProxy(id: Uuid, capacity: Capacity, isDefault: bool, organization: Option<Uuid>) returns (ok: bool)
      requires Inv(tables)
      modifies this
      ensures Inv(tables)
      ensures var t := ProxyAllocator.PutProxy(old(tables), id, capacity, isDefault, organization);
              ok == t.Some? && tables == if ok then t.value else old(tables)
      ensures tables.assignments == old(tables).assignments && tables.overrides == old(tables).overrides
      ensures ok && isDefault ==> forall p <- tables.proxies :: DefaultFor(tables.proxies, p, organization) <==> p == id
    {
      StepKeepsInv(tables, ProxyPut(id, capacity, isDefault, organization));
      if id in tables.proxies && tables.proxies[id].organization != organization {
        return false;
      }
      var others := tables.proxies;
      if isDefault {
        others := map p | p in tables.proxies ::
          if p != id && tables.proxies[p].organization == organization
          then tables.proxies[p].(isDefault := false) else tables.proxies[p];
      }
      if id in tables.proxies && Assigned(tables.assignments, id) > capacity {
        return false;
      }
      assert others == map p | p in tables.proxies ::
        if isDefault && p != id && tables.proxies[p].organization == organization
        then tables.proxies[p].(isDefault := false) else tables.proxies[p];
      tables := tables.(proxies := others[id := Proxy(organization, capacity, isDefault)]);
      return true;
    }

    method SetAccountOverride(account: Uuid, proxy: Option<Uuid>) returns (ok: bool)
      requires Inv(tables)
      modifies this
      ensures Inv(tables)
      ensures var t := SetOverride(old(tables), account, proxy);
              ok == t.Some? && tables == if ok then t.value else old(tables)
      ensures tables.assignments == old(tables).assignments
      ensures ok ==> OverrideOf(tables, account) == Override(proxy, OverrideOf(old(tables), account).revision + 1)
    {
      if account !in tables.accounts {
        return false;
      }
      if proxy.Some? && !Visible(tables, tables.accounts[account], proxy.value) {
        return false;
      }
      var revision := 1;
      if account in tables.overrides {
        revision := tables.overrides[account].revision + 1;
      }
      tables := tables.(overrides := tables.overrides[account := Override(proxy, revision)]);
      return true;
    }

    method ReserveAssignment(account: Uuid) returns (r: Option<Reservation>)
      requires Inv(tables)
      modifies this
      ensures Inv(tables)
      ensures (tables, r) == Reserve(old(tables), account)
      ensures tables.assignments - {account} == old(tables).assignments - {account}
      ensures r.Some? ==> account in tables.assignments && tables.assignments[account].proxy == r.value.proxy
    {
      ReserveKeepsInv(tables, account);
      hide Inv, ReserveOn, Selected;
      if account !in tables.accounts {
        return None;
      }
      var selected := Selected(tables, account);
      if selected.None? {
        return None;
      }
      r := ReserveLocked(account, selected.value);
    }

    /** The part of `reserve` after the proxy row has been locked. */
    method ReserveLocked(account: Uuid, proxy: Uuid) returns (r: Option<Reservation>)
      requires proxy in tables.proxies
      modifies this
      ensures (tables, r) == ReserveOn(old(tables), account, proxy)
      ensures tables.assignments - {account} == old(tables).assignments - {account}
      ensures r.Some? ==> account in tables.assignments && tables.assignments[account].proxy == r.value.proxy
    {
      var over := OverrideOf(tables, account);
      if Current(tables, account, proxy) {
        return Some(Reservation(proxy, false, over.proxy.Some?, tables.assignments[account].id, over.revision));
      }
      if Full(tables, account, proxy) {
        return None;
      }
      var id := tables.nextId;
      tables := tables.(assignments := tables.assignments[account := Assignment(proxy, id, over.revision)],
          nextId := id + 1);
      return Some(Reservation(proxy, true, over.proxy.Some?, id, over.revision));
    }

    method ReleaseFailedReservation(account: Uuid, r: Reservation)
      requires Inv(tables)
      modifies this
      ensures Inv(tables)
      ensures tables == ReleaseFailed(old(tables), account, r)
      ensures tables == old(tables) || tables == old(tables).(assignments := old(tables).assignments - {account})
    {
      RemoveKeepsInv(tables, account);
      if !r.newlyReserved || r.accountOverride {
        return;
      }
      var over := OverrideOf(tables, account);
      if over.proxy.Some? || over.revision != r.revision {
        return;
      }
      if account in tables.assignments &&
          tables.assignments[account] == Assignment(r.proxy, r.assignmentId, r.revision) {
        tables := tables.(assignments := tables.assignments - {account});
      }
    }

    method ReleaseTerminalAssignment(account: Uuid)
      requires Inv(tables)
      modifies this
      ensures Inv(tables)
      ensures tables == ReleaseTerminal(old(tables), account)
    {
      RemoveKeepsInv(tables, account);
      if OverrideOf(tables, account).proxy.None? {
        tables := tables.(assignments := tables.assignments - {account});
      }
    }
  }

  /** The dictionary form: no organizations, one fixed default, and an account that keeps its proxy
      keeps its old assignment whatever happened to its override since. */
  class InMemoryProxyAssignmentRepository {
    const proxies: map<Uuid, Capacity>
    const defaultProxy: Option<Uuid>
    var overrides: map<Uuid, Uuid>
    var assignments: map<Uuid, Assignment>
    var revisions: map<Uuid, nat>
    var nextId: Uuid

    /** No proxy is over capacity; overrides, default and assignments name known proxies; assignment
        ids are unique, and no assignment is newer than its account's revision. */
    ghost predicate Valid()
      reads this
    {
      && (defaultProxy.Some? ==> defaultProxy.value in proxies)
      && (forall a <- overrides :: overrides[a] in proxies)
      && Fits(assignments, nextId)
    }

    ghost predicate Fits(assignments: map<Uuid, Assignment>, nextId: Uuid)
      reads this`revisions
    {
      && (forall a <- assignments :: assignments[a].proxy in proxies && assignments[a].revision <= Revision(a))
      && (forall p <- proxies :: Assigned(assignments, p) <= proxies[p])
      && IdsInv(assignments, nextId)
    }

    function Revision(account: Uuid): nat
      reads this`revisions
    {
      if account in revisions then revisions[account] else 0
    }

    /** No object is made for an unknown default proxy: that is a ValueError. */
    constructor (proxies: map<Uuid, Capacity>, defaultProxy: Option<Uuid>)
      requires defaultProxy.Some? ==> defaultProxy.value in proxies
      ensures Valid()
      ensures this.proxies == proxies && this.defaultProxy == defaultProxy && assignments == map[]
      ensures overrides == map[] && revisions == map[]
    {
      this.proxies := proxies;
      this.defaultProxy := defaultProxy;
      overrides, assignments, revisions, nextId := map[], map[], map[], 0;
      new;
      forall p | p in proxies
        ensures Assigned(assignments, p) == 0
      {
        assert Holders(assignments, p) == {};
      }
    }

    /** The revision moves on even when the proxy is unknown and the call fails. */
    method SetAccountOverride(account: Uuid, proxy: Option<Uuid>) returns (ok: bool)
      requires Valid()
      modifies `overrides, `revisions
      ensures Valid()
      ensures account in revisions
      ensures revisions[account] == 1 + if account in old(revisions) then old(revisions)[account] else 0
      ensures revisions == old(revisions)[account := revisions[account]]
      ensures ok <==> proxy.None? || proxy.value in proxies
      ensures overrides == if !ok then old(overrides) else if proxy.None? then old(overrides) - {account}
        else old(overrides)[account := proxy.value]
    {
      revisions := revisions[account := Revision(account) + 1];
      if proxy.None? {
        overrides := overrides - {account};
      } else if proxy.value in proxies {
        overrides := overrides[account := proxy.value];
      } else {
        return false;
      }
      return true;
    }

    /** The override, or the default. */
    function Selected(account: Uuid): Option<Uuid>
      reads this
    {
      if account in overrides then Some(overrides[account]) else defaultProxy
    }

    method ReserveAssignment(account: Uuid) returns (r: Option<Reservation>)
      requires Valid()
      modifies `assignments, `nextId
      ensures Valid()
      ensures r.None? <==>
        Selected(account).None? || (!Keeps(old(assignments), account) && Exhausted(old(assignments), account))
      ensures r.None? ==> assignments == old(assignments)
      ensures r.Some? ==>
        Some(r.value.proxy) == if account in overrides then Some(overrides[account]) else defaultProxy
      ensures r.None? && account in overrides ==>
        Assigned(old(assignments), overrides[account]) >= proxies[overrides[account]]
      ensures r.None? && account !in overrides && defaultProxy.Some? ==>
        Assigned(old(assignments), defaultProxy.value) >= proxies[defaultProxy.value]
      ensures r.Some? && r.value.newlyReserved ==>
        r.value.revision == if account in revisions then revisions[account] else 0
      ensures r.Some? && r.value.newlyReserved ==>
        && r.value == Reservation(Selected(account).value, true, account in overrides, old(nextId), Revision(account))
        && !Keeps(old(assignments), account)
        && assignments == old(assignments)[account := Assignment(r.value.proxy, r.value.assignmentId, r.value.revision)]
      ensures r.Some? && !r.value.newlyReserved ==>
        && Keeps(old(assignments), account) && assignments == old(assignments)
        && var kept := assignments[account];
           r.value == Reservation(kept.proxy, false, account in overrides, kept.id, kept.revision)
    {
      hide IdsInv, Assigned;
      var selected := Selected(account);
      if selected.None? {
        return None;
      }
      var proxy := selected.value;
      if account in assignments && assignments[account].proxy == proxy {
        var current := assignments[account];
        return Some(Reservation(proxy, false, account in overrides, current.id, current.revision));
      }
      if Assigned(assignments, proxy) >= proxies[proxy] {
        return None;
      }
      var x := Assignment(proxy, nextId, Revision(account));
      AssignFits(account, x);
      assignments := assignments[account := x];
      nextId := nextId + 1;
      return Some(Reservation(proxy, true, account in overrides, x.id, x.revision));
    }

    /** The account is already on its selected proxy. */
    predicate Keeps(assignments: map<Uuid, Assignment>, account: Uuid)
      reads this
    {
      account in assignments && Some(assignments[account].proxy) == Selected(account)
    }

    /** The selected proxy has no place left. */
    predicate Exhausted(assignments: map<Uuid, Assignment>, account: Uuid)
      reads this
      requires Selected(account).Some? && Selected(account).value in proxies
    {
      Assigned(assignments, Selected(account).value) >= proxies[Selected(account).value]
    }

    lemma AssignFits(account: Uuid, x: Assignment)
      requires Valid() && x.proxy in proxies && Assigned(assignments, x.proxy) < proxies[x.proxy]
      requires x.id == nextId && x.revision == Revision(account)
      ensures Fits(assignments[account := x], nextId + 1)
    {
      forall p | p in proxies
        ensures Assigned(assignments[account := x], p) <= proxies[p]
      {
        HoldersAfterPut(assignments, account, x, p);
        FewerHolders(Holders(assignments, p), account);
      }
      AssignKeepsIds(assignments, nextId, account, x);
      hide IdsInv, Assigned;
    }

    /** Removes exactly the reservation's own assignment, and nothing once the revision moved on. */
    method ReleaseFailedReservation(account: Uuid, r: Reservation)
      requires Valid()
      modifies `assignments
      ensures Valid()
      ensures
        var own := r.newlyReserved && !r.accountOverride && r.revision == Revision(account)
                   && account in old(assignments)
                   && old(assignments)[account] == Assignment(r.proxy, r.assignmentId, r.revision);
        assignments == if own then old(assignments) - {account} else old(assignments)
    {
      if r.newlyReserved && !r.accountOverride && account in assignments
         && assignments[account] == Assignment(r.proxy, r.assignmentId, r.revision) && Revision(account) == r.revision
      {
        RemoveAll(account);
        assignments := assignments - {account};
      }
    }

    method ReleaseTerminalAssignment(account: Uuid)
      requires Valid()
      modifies `assignments
      ensures Valid()
      ensures assignments == if account in overrides then old(assignments) else old(assignments) - {account}
    {
      if account !in overrides {
        RemoveAll(account);
        assignments := assignments - {account};
      }
    }

    lemma RemoveAll(account: Uuid)
      requires Valid()
      ensures Fits(assignments - {account}, nextId)
    {
      forall p | p in proxies
        ensures Assigned(assignments - {account}, p) <= proxies[p]
      {
        HoldersAfterRemove(assignments, account, p);
      }
    }
  }
}
