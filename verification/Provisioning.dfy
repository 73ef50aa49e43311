/** One platform account per Telegram identity (postgres_state.py, `telegram_accounts`).

    `provision` reads and then inserts; nothing is locked while the row is absent, so two callers can
    both find nothing and the unique column refuses one of the inserts. Rows are never deleted. */
module Provisioning {
  import opened Common

  datatype AccountRow = AccountRow(organization: Uuid, telegramUserId: Option<int>)

  type Rows = map<Uuid, AccountRow>

  predicate UniqueTelegram(rows: Rows) {
    forall a, b :: a in rows && b in rows && SameIdentity(rows[a], rows[b]) ==> a == b
  }

  predicate SameIdentity(a: AccountRow, b: AccountRow) {
    a.telegramUserId.Some? && a.telegramUserId == b.telegramUserId
  }

  predicate Holds(rows: Rows, account: Uuid, telegramUserId: int) {
    account in rows && rows[account].telegramUserId == Some(telegramUserId)
  }

  ghost predicate Taken(rows: Rows, telegramUserId: int) {
    exists a :: Holds(rows, a, telegramUserId)
  }

  /** The account of a Telegram identity. */
  ghost function Holder(rows: Rows, telegramUserId: int): (r: Option<Uuid>)
    ensures r.Some? ==> Holds(rows, r.value, telegramUserId)
    ensures r.None? <==> !Taken(rows, telegramUserId)
  {
    if Taken(rows, telegramUserId) then
      var a :| Holds(rows, a, telegramUserId);
      Some(a)
    else None
  }

  class TelegramAccounts {
    var rows: Rows

    constructor ()
      ensures rows == map[]
    {
      rows := map[];
    }

    /** An account's organization may be reassigned; its Telegram identity stays. */
    method Put(account: Uuid, organization: Uuid)
      requires UniqueTelegram(rows)
      modifies this
      ensures UniqueTelegram(rows)
      ensures rows.Keys == old(rows).Keys + {account} && rows[account].organization == organization
      ensures rows[account].telegramUserId == if account in old(rows) then old(rows)[account].telegramUserId else None
      ensures forall a <- old(rows) :: a != account ==> rows[a] == old(rows)[a]
    {
      if account !in rows {
        rows := rows[account := AccountRow(organization, None)];
      } else {
        rows := rows[account := rows[account].(organization := organization)];
      }
    }

    method Lookup(telegramUserId: int) returns (r: Option<Uuid>)
      requires UniqueTelegram(rows)
      ensures r == Holder(rows, telegramUserId)
    {
      if a :| a in rows && rows[a].telegramUserId == Some(telegramUserId) {
        assert Holds(rows, a, telegramUserId);
        return Some(a);
      }
      assert !Taken(rows, telegramUserId);
      return None;
    }

    /** Both attempts. `drawn` are the fresh ids, `rivals` the rows that other transactions commit for
        the same identity after this one has read that there is none. None is the error. A lost race
        never ends in it: the second attempt reads the winner's row. */
    method Provision(organization: Uuid, telegramUserId: int, drawn: seq<Uuid>,
                     rivals: seq<Option<(Uuid, Uuid)>>) returns (r: Option<Uuid>)
      requires UniqueTelegram(rows) && |drawn| == |rivals| == 2
      requires forall k :: 0 <= k < 2 ==> drawn[k] !in rows && (rivals[k].Some? ==> rivals[k].value.0 !in rows)
      modifies this
      ensures UniqueTelegram(rows)
      ensures telegramUserId <= 0 ==> r.None? && rows == old(rows)
      ensures telegramUserId > 0 && Taken(old(rows), telegramUserId) ==>
        var holder := Holder(old(rows), telegramUserId).value;
        rows == old(rows) && r == if rows[holder].organization == organization then Some(holder) else None
      ensures telegramUserId > 0 && !Taken(old(rows), telegramUserId) && rivals[0].None? ==>
        r == Some(drawn[0]) && rows == old(rows)[drawn[0] := AccountRow(organization, Some(telegramUserId))]
      ensures telegramUserId > 0 && !Taken(old(rows), telegramUserId) && rivals[0].Some? ==>
        var (winner, winnersOrganization) := rivals[0].value;
        && rows == old(rows)[winner := AccountRow(winnersOrganization, Some(telegramUserId))]
        && r == if winnersOrganization == organization then Some(winner) else None
    {
      if telegramUserId <= 0 {
        return None;
      }
      var attempt := 0;
      while attempt < 2
        invariant 0 <= attempt <= 1
        invariant UniqueTelegram(rows)
        invariant attempt == 0 ==> rows == old(rows)
        invariant attempt == 1 ==>
          && !Taken(old(rows), telegramUserId) && rivals[0].Some?
          && rows == old(rows)[rivals[0].value.0 := AccountRow(rivals[0].value.1, Some(telegramUserId))]
      {
        var found := Lookup(telegramUserId);
        if attempt == 1 {
          assert Holds(rows, rivals[0].value.0, telegramUserId);
        }
        if found.Some? {
          return if rows[found.value].organization != organization then None else found;
        }
        assert forall a <- rows :: !Holds(rows, a, telegramUserId);
        if rivals[attempt].Some? {
          rows := rows[rivals[attempt].value.0 := AccountRow(rivals[attempt].value.1, Some(telegramUserId))];
          attempt := attempt + 1;
        } else {
          rows := rows[drawn[attempt] := AccountRow(organization, Some(telegramUserId))];
          return Some(drawn[attempt]);
        }
      }
      assert false;
      return None;
    }
  }

  // ---- any number of callers, in any interleaving ----

  datatype Pc = Reading(attempt: nat) | Inserting(attempt: nat) | Returned(account: Uuid) | Refused | Exhausted

  datatype Caller = Caller(organization: Uuid, telegramUserId: int, pc: Pc)

  datatype System = System(rows: Rows, callers: map<nat, Caller>)

  /** `Insert` carries the account id that was drawn. */
  datatype Event =
    | Begin(caller: nat, organization: Uuid, telegramUserId: int)
    | Read(caller: nat)
    | Insert(caller: nat, drawn: Uuid)
    | Put(account: Uuid, organization: Uuid)

  const INITIAL := System(map[], map[])

  ghost function AfterRead(rows: Rows, c: Caller): Pc
    requires c.pc.Reading?
  {
    var holder := Holder(rows, c.telegramUserId);
    if holder.None? then Inserting(c.pc.attempt)
    else if rows[holder.value].organization != c.organization then Refused
    else Returned(holder.value)
  }

  /** The unique column and the primary key both refuse with an IntegrityError. */
  ghost function AfterInsert(s: System, id: nat, drawn: Uuid): System
    requires id in s.callers && s.callers[id].pc.Inserting?
  {
    var c := s.callers[id];
    if drawn in s.rows || Taken(s.rows, c.telegramUserId) then
      s.(callers := s.callers[id := c.(pc := if c.pc.attempt + 1 < 2 then Reading(c.pc.attempt + 1) else Exhausted)])
    else
      System(s.rows[drawn := AccountRow(c.organization, Some(c.telegramUserId))],
          s.callers[id := c.(pc := Returned(drawn))])
  }

  ghost function Step(s: System, e: Event): System {
    match e
    case Begin(id, organization, telegramUserId) =>
      if id in s.callers then s
      else s.(callers := s.callers[id := Caller(organization, telegramUserId,
          if telegramUserId <= 0 then Refused else Reading(0))])
    case Read(id) =>
      if id in s.callers && s.callers[id].pc.Reading?
      then s.(callers := s.callers[id := s.callers[id].(pc := AfterRead(s.rows, s.callers[id]))]) else s
    case Insert(id, drawn) =>
      if id in s.callers && s.callers[id].pc.Inserting? then AfterInsert(s, id, drawn) else s
    case Put(account, organization) =>
      s.(rows := s.rows[account := if account in s.rows then s.rows[account].(organization := organization)
        else AccountRow(organization, None)])
  }

  ghost function Run(s: System, events: seq<Event>): System
    decreases |events|
  {
    if events == [] then s else Run(Step(s, events[0]), events[1..])
  }

  /** No insert of the run draws an account id that is already in use. */
  ghost predicate FreshIds(s: System, events: seq<Event>)
    decreases |events|
  {
    events != [] ==>
      (events[0].Insert? ==> events[0].drawn !in s.rows) && FreshIds(Step(s, events[0]), events[1..])
  }

  /** Everyone who asks for the identity is of one organization, and nobody moves its account to another. */
  ghost predicate OneOrganization(s: System, events: seq<Event>, telegramUserId: int, organization: Uuid)
    decreases |events|
  {
    events != [] ==>
      && (events[0].Begin? && events[0].telegramUserId == telegramUserId ==> events[0].organization == organization)
      && (events[0].Put? && Holds(s.rows, events[0].account, telegramUserId) ==> events[0].organization == organization)
      && OneOrganization(Step(s, events[0]), events[1..], telegramUserId, organization)
  }

  predicate CallerOk(rows: Rows, c: Caller) {
    && (c.pc.Returned? ==> Holds(rows, c.pc.account, c.telegramUserId))
    && (!c.pc.Refused? ==> c.telegramUserId > 0)
  }

  ghost predicate Inv(s: System) {
    UniqueTelegram(s.rows) && forall id <- s.callers :: CallerOk(s.rows, s.callers[id])
  }

  /** Identities stay where they are. */
  ghost predicate Kept(rows: Rows, rows': Rows) {
    forall a, t :: Holds(rows, a, t) ==> Holds(rows', a, t)
  }

  lemma StepKeepsInv(s: System, e: Event)
    requires Inv(s)
    ensures Inv(Step(s, e)) && Kept(s.rows, Step(s, e).rows)
  {
    var t := Step(s, e);
    if e.Insert? && e.caller in s.callers && s.callers[e.caller].pc.Inserting? {
      assert forall a <- s.rows :: !Taken(s.rows, s.callers[e.caller].telegramUserId) ==>
          !Holds(s.rows, a, s.callers[e.caller].telegramUserId);
    }
    assert Kept(s.rows, t.rows);
    forall id | id in t.callers
      ensures CallerOk(t.rows, t.callers[id])
    {
      assert id in s.callers ==> CallerOk(s.rows, s.callers[id]);
    }
  }

  lemma {:induction false} RunKeepsInv(s: System, events: seq<Event>)
    requires Inv(s)
    ensures Inv(Run(s, events))
    decreases |events|
  {
    if events != [] {
      StepKeepsInv(s, events[0]);
      RunKeepsInv(Step(s, events[0]), events[1..]);
    }
  }

  /** Whoever returned for one Telegram identity returned the same account, in every interleaving. */
  lemma OneAccountPerIdentity(events: seq<Event>, i: nat, j: nat)
    requires var s := Run(INITIAL, events);
             i in s.callers && j in s.callers && s.callers[i].pc.Returned? && s.callers[j].pc.Returned?
             && s.callers[i].telegramUserId == s.callers[j].telegramUserId
    ensures var s := Run(INITIAL, events); s.callers[i].pc.account == s.callers[j].pc.account
  {
    RunKeepsInv(INITIAL, events);
    var s := Run(INITIAL, events);
    assert CallerOk(s.rows, s.callers[i]) && CallerOk(s.rows, s.callers[j]);
  }

  /** A second attempt is only made for an identity that is taken by then. */
  ghost predicate AttemptsOk(s: System) {
    forall id <- s.callers :: var c := s.callers[id];
      && !c.pc.Exhausted?
      && (c.pc.Reading? ==> c.pc.attempt == 0 || (c.pc.attempt == 1 && Taken(s.rows, c.telegramUserId)))
      && (c.pc.Inserting? ==> c.pc.attempt == 0)
  }

  lemma TakenStays(rows: Rows, rows': Rows, telegramUserId: int)
    requires Kept(rows, rows') && Taken(rows, telegramUserId)
    ensures Taken(rows', telegramUserId)
  {
    var a :| Holds(rows, a, telegramUserId);
    assert Holds(rows', a, telegramUserId);
  }

  lemma StepKeepsAttempts(s: System, e: Event)
    requires Inv(s) && AttemptsOk(s) && (e.Insert? ==> e.drawn !in s.rows)
    ensures AttemptsOk(Step(s, e))
  {
    StepKeepsInv(s, e);
    var t := Step(s, e);
    forall id | id in s.callers && Taken(s.rows, s.callers[id].telegramUserId)
      ensures Taken(t.rows, s.callers[id].telegramUserId)
    {
      TakenStays(s.rows, t.rows, s.callers[id].telegramUserId);
    }
  }

  /** No caller ever falls through to the final error because of a lost race. */
  lemma {:induction false} LostRacesResolve(s: System, events: seq<Event>)
    requires Inv(s) && AttemptsOk(s) && FreshIds(s, events)
    ensures forall id <- Run(s, events).callers :: !Run(s, events).callers[id].pc.Exhausted?
    decreases |events|
  {
    if events != [] {
      StepKeepsInv(s, events[0]);
      StepKeepsAttempts(s, events[0]);
      LostRacesResolve(Step(s, events[0]), events[1..]);
    }
  }

  /** The identity's callers and its account are of the organization, and none was refused. */
  ghost predicate Uncontested(s: System, telegramUserId: int, organization: Uuid) {
    && (forall a :: Holds(s.rows, a, telegramUserId) ==> s.rows[a].organization == organization)
    && (forall id <- s.callers :: s.callers[id].telegramUserId == telegramUserId ==>
          s.callers[id].organization == organization && !s.callers[id].pc.Refused?)
  }

  lemma {:induction false} RunStaysUncontested(s: System, events: seq<Event>, telegramUserId: int, organization: Uuid)
    requires Inv(s) && telegramUserId > 0 && Uncontested(s, telegramUserId, organization)
    requires OneOrganization(s, events, telegramUserId, organization)
    ensures Uncontested(Run(s, events), telegramUserId, organization)
    decreases |events|
  {
    if events != [] {
      StepKeepsInv(s, events[0]);
      RunStaysUncontested(Step(s, events[0]), events[1..], telegramUserId, organization);
    }
  }

  /** Concurrent provisioners of one identity in one organization: none is refused, none fails for
      losing a race, and all that are done got the same account, which belongs to the organization. */
  lemma ConcurrentProvisionersAgree(events: seq<Event>, telegramUserId: int, organization: Uuid)
    requires telegramUserId > 0
    requires FreshIds(INITIAL, events) && OneOrganization(INITIAL, events, telegramUserId, organization)
    ensures
      var s := Run(INITIAL, events);
      forall i <- s.callers :: s.callers[i].telegramUserId == telegramUserId ==>
        && !s.callers[i].pc.Refused? && !s.callers[i].pc.Exhausted?
        && (s.callers[i].pc.Returned? ==>
              && Some(s.callers[i].pc.account) == Holder(s.rows, telegramUserId)
              && s.rows[s.callers[i].pc.account].organization == organization)
  {
    RunKeepsInv(INITIAL, events);
    LostRacesResolve(INITIAL, events);
    RunStaysUncontested(INITIAL, events, telegramUserId, organization);
    var s := Run(INITIAL, events);
    forall i | i in s.callers && s.callers[i].telegramUserId == telegramUserId && s.callers[i].pc.Returned?
      ensures Some(s.callers[i].pc.account) == Holder(s.rows, telegramUserId)
    {
      assert CallerOk(s.rows, s.callers[i]);
    }
  }

  // ---- where a caller gets to ----

  lemma RunThree(s: System, a: Event, b: Event, c: Event)
    ensures Run(s, [a, b, c]) == Step(Step(Step(s, a), b), c)
  {
    assert [a, b, c][1..] == [b, c] && [b, c][1..] == [c] && [c][1..] == [];
    assert Run(s, [a, b, c]) == Run(Step(s, a), [b, c]) == Run(Step(Step(s, a), b), [c]);
    assert Run(Step(Step(s, a), b), [c]) == Run(Step(Step(Step(s, a), b), c), []);
  }

  predicate Ends(s: System, t: System, id: nat, organization: Uuid, telegramUserId: int, pc: Pc, rows: Rows) {
    t.rows == rows && t.callers == s.callers[id := Caller(organization, telegramUserId, pc)]
  }

  /** An undisturbed call for an identity that nobody has: the account is made under the drawn id, in the caller's
      organization. An id that is already an account's costs the first attempt. */
  lemma NewIdentityIsProvisioned(events: seq<Event>, id: nat, organization: Uuid, telegramUserId: int, drawn: Uuid)
    requires var s := Run(INITIAL, events); id !in s.callers && telegramUserId > 0 && !Taken(s.rows, telegramUserId)
    ensures
      var s := Run(INITIAL, events);
      var t := Run(s, [Begin(id, organization, telegramUserId), Read(id), Insert(id, drawn)]);
      if drawn in s.rows then Ends(s, t, id, organization, telegramUserId, Reading(1), s.rows)
      else Ends(s, t, id, organization, telegramUserId, Returned(drawn),
                s.rows[drawn := AccountRow(organization, Some(telegramUserId))])
  {
    hide Taken;
    RunThree(Run(INITIAL, events), Begin(id, organization, telegramUserId), Read(id), Insert(id, drawn));
  }

  /** An undisturbed call for an identity that has an account: the account is returned to its own organization, and
      refused to any other; nothing is written. Numbers that are not positive are refused at once. */
  lemma KnownIdentityIsReturned(events: seq<Event>, id: nat, organization: Uuid, telegramUserId: int, account: Uuid,
                                drawn: Uuid)
    requires var s := Run(INITIAL, events);
             id !in s.callers && (telegramUserId > 0 ==> Holds(s.rows, account, telegramUserId))
    ensures
      var s := Run(INITIAL, events);
      var t := Run(s, [Begin(id, organization, telegramUserId), Read(id), Insert(id, drawn)]);
      Ends(s, t, id, organization, telegramUserId,
           if telegramUserId > 0 && s.rows[account].organization == organization then Returned(account) else Refused,
           s.rows)
  {
    RunKeepsInv(INITIAL, events);
    RunThree(Run(INITIAL, events), Begin(id, organization, telegramUserId), Read(id), Insert(id, drawn));
  }

  /** A caller that lost the race to insert reads the winner's account on its second attempt; a second collision of
      drawn ids, and nothing else, is the final error. */
  lemma LostRaceReadsTheWinner(events: seq<Event>, id: nat, drawn: Uuid, again: Uuid)
    requires var s := Run(INITIAL, events); id in s.callers && s.callers[id].pc == Inserting(0)
    requires var s := Run(INITIAL, events); drawn in s.rows || Taken(s.rows, s.callers[id].telegramUserId)
    ensures
      var s := Run(INITIAL, events);
      var c := s.callers[id];
      var t := Run(s, [Insert(id, drawn), Read(id), Insert(id, again)]);
      && (forall account :: Holds(s.rows, account, c.telegramUserId) ==>
            Ends(s, t, id, c.organization, c.telegramUserId,
                 if s.rows[account].organization == c.organization then Returned(account) else Refused, s.rows))
      && (!Taken(s.rows, c.telegramUserId) && again in s.rows ==>
            Ends(s, t, id, c.organization, c.telegramUserId, Exhausted, s.rows))
      && (!Taken(s.rows, c.telegramUserId) && again !in s.rows ==>
            Ends(s, t, id, c.organization, c.telegramUserId, Returned(again),
                 s.rows[again := AccountRow(c.organization, Some(c.telegramUserId))]))
  {
    RunKeepsInv(INITIAL, events);
    RunThree(Run(INITIAL, events), Insert(id, drawn), Read(id), Insert(id, again));
  }
}
