/** The claims about every run of the connection system, and where the code needs a guard it lacks. */
module ConnectionTheorems {
  import opened Common
  import opened ConnectionModel
  import opened ConnectionSystem
  import opened ConnectionSafety

  lemma {:induction false} Reachable(maxRetries: nat, events: seq<Event>)
    requires maxRetries >= 1 && OrderlyRun(Initial(maxRetries), events)
    ensures Inv(Run(Initial(maxRetries), events))
  {
    RunKeepsInv(Initial(maxRetries), events);
  }

  // ---- which runs keep order ----

  /** The row's version does not go back in this step. */
  predicate KeepsVersion(s: System, e: Event) {
    s.row.Some? ==> Step(s, e).row.Some? && Step(s, e).row.value.version >= s.row.value.version
  }

  predicate KeepsVersions(s: System, events: seq<Event>)
    decreases |events|
  {
    events != [] ==> KeepsVersion(s, events[0]) && KeepsVersions(Step(s, events[0]), events[1..])
  }

  /** A step takes the version back exactly when it is a `save` that lands on an unleased row with
      another version than the one it was made from. */
  lemma KeepsVersionExactly(s: System, e: Event)
    requires Inv(s)
    ensures KeepsVersion(s, e) <==> Orderly(s, e)
  {
    if e.Act? && e.id in s.loops {
      assert PcInv(s, s.loops[e.id]);
      AdvanceMoves(s, s.loops[e.id], e.input);
    }
  }

  /** Over whole runs: versions never go back if and only if every `save` passes that guard. */
  lemma {:induction false} OrderlyRunsExactly(s: System, events: seq<Event>)
    requires Inv(s)
    ensures KeepsVersions(s, events) <==> OrderlyRun(s, events)
    decreases |events|
  {
    if events != [] {
      KeepsVersionExactly(s, events[0]);
      if Orderly(s, events[0]) {
        StepKeepsInv(s, events[0]);
        OrderlyRunsExactly(Step(s, events[0]), events[1..]);
      }
    }
  }

  /** Whenever an account is paused and unleased, an archive between the two steps of a resume is undone. */
  lemma ResumeUndoesArchive(s: System, operator: nat)
    requires s.row.Some? && s.row.value.health.state == Paused && s.row.value.leaseOwner.None?
    ensures
      var before := Step(Step(s, ResumeRead(operator)), Force(Archived));
      var after := Step(before, ResumeSave(operator));
      && before.row.Some? && before.row.value.health.state == Archived
      && after.row == Some(Resumed(s.row.value, s.now)) && after.row.value.version < before.row.value.version
  {
    var read := Step(s, ResumeRead(operator));
    assert read.row == s.row && read.now == s.now && operator in read.operators &&
        read.operators[operator] == s.row.value;
    var before := Step(read, Force(Archived));
    assert before.row == Some(Forced(s.row.value, Archived, s.now)) && before.operators == read.operators &&
        before.now == s.now;
  }

  lemma ImportedRow(s: System)
    requires s.row.None?
    ensures Step(s, Import(1, 1)).row == Some(Imported(1, 1, s.now)) && Step(s, Import(1, 1)).now == s.now
  {
  }

  /** `resume` reads and saves in two steps: an archive between them is undone. */
  lemma StaleResumeRevivesArchived()
    ensures
      var before := Run(Initial(5), [Import(1, 1), Force(Paused), ResumeRead(0), Force(Archived)]);
      var after := Step(before, ResumeSave(0));
      && before.row.Some? && before.row.value.health.state == Archived
      && after.row.Some? && after.row.value.health.state == Quarantine
      && after.row.value.version < before.row.value.version
  {
    RunFour(Initial(5), Import(1, 1), Force(Paused), ResumeRead(0), Force(Archived));
    ImportedRow(Initial(5));
    var imported := Step(Initial(5), Import(1, 1));
    PausedRow(imported);
    hide Step;
    ResumeUndoesArchive(Step(imported, Force(Paused)), 0);
  }

  /** A second import of the account writes version and fence zero: an archived account comes back. */
  lemma ReimportRevivesArchived()
    ensures
      var before := Run(Initial(5), [Import(1, 1), Elapse(1.0), Force(Paused), Force(Archived)]);
      var after := Step(before, Import(1, 2));
      && before.row.Some? && before.row.value.health.state == Archived
      && after.row.Some? && after.row.value.health.state == Quarantine && after.row.value.version == 0
  {
    RunFour(Initial(5), Import(1, 1), Elapse(1.0), Force(Paused), Force(Archived));
  }

  lemma RunFour(s: System, a: Event, b: Event, c: Event, d: Event)
    ensures Run(s, [a, b, c, d]) == Step(Step(Step(Step(s, a), b), c), d)
  {
    assert [a, b, c, d][1..] == [b, c, d];
    assert [b, c, d][1..] == [c, d];
    assert [c, d][1..] == [d];
    assert [d][1..] == [];
    var s1 := Step(s, a);
    var s2 := Step(s1, b);
    var s3 := Step(s2, c);
    var s4 := Step(s3, d);
    assert Run(s, [a, b, c, d]) == Run(s1, [b, c, d]) == Run(s2, [c, d]) == Run(s3, [d]) == Run(s4, []);
  }

  /** The record of the first claim after an import at time zero. */
  function FirstClaim(c: Config): ConnectionRecord {
    Claimed(Imported(1, 1, 0.0), c.owner, c.lease, 0.0)
  }

  /** Importing, starting a loop and letting it claim, when the row is unleased. */
  lemma ImportAndClaim(s: System, id: nat, c: Config)
    requires c.lease > 0.0 && 1 <= c.maxRetries <= s.maxRetries && s.now == 0.0 && id !in s.loops
    requires s.row.Some? ==> s.row.value.leaseOwner.None?
    ensures
      var t := Step(Step(Step(s, Import(1, 1)), Start(id, c)), Act(id, Proceed));
      t.row == Some(FirstClaim(c)) && t.loops == s.loops[id := Loop(c, Renewing(FirstClaim(c)))] && t.now == 0.0 &&
          t.maxRetries == s.maxRetries
  {
    var s1 := Step(s, Import(1, 1));
    assert s1.row == Some(Imported(1, 1, 0.0)) && s1.loops == s.loops;
    var s2 := Step(s1, Start(id, c));
    assert s2.loops == s.loops[id := Loop(c, Starting)] && s2.row == s1.row;
  }

  /** After a re-import, a record held since before a pause is accepted again: the same supervisor
      claims anew, version and fence count up from zero once more, and the old loop's renewal
      succeeds although the account was paused in between. Two loops of one owner on one account: `start`
      joins a running task, so the older one is a cancelled task whose database thread still runs. */
  lemma ReimportRevivesStaleClaim(c: Config)
    requires c.lease > 0.0 && 1 <= c.maxRetries <= 5
    ensures
      var held := Run(Initial(5), [Import(1, 1), Start(0, c), Act(0, Proceed), Force(Paused)]);
      var again := Run(held, [Import(1, 1), Start(1, c), Act(1, Proceed), Elapse(0.0)]);
      && 0 in held.loops && held.loops[0].pc.Renewing?
      && 0 in again.loops && again.loops[0].pc == held.loops[0].pc
      && SqlRenewLease(again.row, held.loops[0].pc.record, c.owner, c.lease, again.now).1.Some?
  {
    RunFour(Initial(5), Import(1, 1), Start(0, c), Act(0, Proceed), Force(Paused));
    ImportAndClaim(Initial(5), 0, c);
    var claimed := Step(Step(Step(Initial(5), Import(1, 1)), Start(0, c)), Act(0, Proceed));
    var held := Step(claimed, Force(Paused));
    PausedRow(claimed);
    RunFour(held, Import(1, 1), Start(1, c), Act(1, Proceed), Elapse(0.0));
    ImportAndClaim(held, 1, c);
  }

  lemma PausedRow(s: System)
    requires s.row.Some? && s.row.value.health.state != Archived
    ensures var t := Step(s, Force(Paused));
            t.row == Some(Forced(s.row.value, Paused, s.now)) && t.loops == s.loops && t.now == s.now &&
                t.maxRetries == s.maxRetries
  {
  }

  // ---- terminal wins ----

  /** The shape of the row in every reachable state. */
  lemma RowShape(maxRetries: nat, events: seq<Event>)
    requires maxRetries >= 1 && OrderlyRun(Initial(maxRetries), events)
    ensures
      var row := Run(Initial(maxRetries), events).row;
      row.Some? ==>
        && (Terminal(row.value.health.state) ==> row.value.leaseOwner.None?)
        && (row.value.health.state == Active ==> row.value.leaseOwner.Some?)
        && (row.value.leaseOwner.Some? <==> row.value.leaseExpiresAt.Some?)
  {
    Reachable(maxRetries, events);
  }

  lemma OrderlyStepGrows(s: System, e: Event)
    requires Inv(s) && Orderly(s, e) && s.row.Some?
    ensures var t := Step(s, e);
            && t.row.Some? && t.row.value.version >= s.row.value.version && t.row.value.fence >= s.row.value.fence
            && (s.row.value.health.state == Archived ==> t.row == s.row)
  {
    if e.Act? && e.id in s.loops {
      assert PcInv(s, s.loops[e.id]);
      AdvanceMoves(s, s.loops[e.id], e.input);
      ArchivedRefuses(s.row, s.loops[e.id], e.input, s.now);
    }
  }

  /** No loop step changes an archived, unleased row. */
  lemma ArchivedRefuses(row: Row, l: Loop, input: Input, now: Instant)
    ensures (row.Some? && row.value.health.state == Archived && row.value.leaseOwner.None?) ==>
              Advance(row, l.config, l.pc, input, now).row == row
  {
  }

  /** Versions and fences never go back along a run, and an archived row is never written again. */
  lemma {:induction false} OrderlyRunGrows(s: System, events: seq<Event>)
    requires Inv(s) && OrderlyRun(s, events) && s.row.Some?
    ensures var t := Run(s, events);
            && t.row.Some? && t.row.value.version >= s.row.value.version && t.row.value.fence >= s.row.value.fence
            && (s.row.value.health.state == Archived ==> t.row == s.row)
    decreases |events|
  {
    if events != [] {
      OrderlyStepGrows(s, events[0]);
      StepKeepsInv(s, events[0]);
      OrderlyRunGrows(Step(s, events[0]), events[1..]);
    }
  }

  /** The repository accepts no write made from this record, whatever fields the caller changed. */
  predicate Refused(row: Row, candidate: ConnectionRecord, owner: Uuid, release: bool, lease: real, now: Instant) {
    && SqlSaveClaimed(row, candidate, owner, release, now) == (row, None)
    && SqlRenewLease(row, candidate, owner, lease, now) == (row, None)
    && SqlFailClosed(row, candidate, owner, now) == (row, None)
  }

  /** Terminal wins: once pause or archive was forced, no record handed out before can ever be saved,
      renewed or failed closed again, for all later runs. */
  lemma TerminalWins(maxRetries: nat, events: seq<Event>, state: HealthState, later: seq<Event>, held: ConnectionRecord,
                     candidate: ConnectionRecord, owner: Uuid, release: bool, lease: real)
    requires maxRetries >= 1 && OrderlyRun(Initial(maxRetries), events) && (state == Paused || state == Archived)
    requires OrderlyRun(Step(Run(Initial(maxRetries), events), Force(state)), later)
    requires held in Run(Initial(maxRetries), events).issued && candidate.version == held.version
    requires candidate.fence == held.fence
    ensures var t := Run(Step(Run(Initial(maxRetries), events), Force(state)), later);
            Refused(t.row, candidate, owner, release, lease, t.now)
  {
    Reachable(maxRetries, events);
    var s := Run(Initial(maxRetries), events);
    ForceKeepsInv(s, state);
    ForcedIsNewer(s, state, held);
    hide Inv, Run, Step, Refused;
    OrderlyRunGrows(Step(s, Force(state)), later);
    RunKeepsInv(Step(s, Force(state)), later);
    NewerRefuses(Step(s, Force(state)), Run(Step(s, Force(state)), later), held, candidate, owner, release, lease);
  }

  /** Forcing puts the row ahead of every record handed out, or finds it archived and unleased. */
  lemma ForcedIsNewer(s: System, state: HealthState, held: ConnectionRecord)
    requires Inv(s) && (state == Paused || state == Archived) && held in s.issued
    ensures
      var t := Step(s, Force(state));
      && t.row.Some?
      && (held.version < t.row.value.version || (t.row.value.health.state == Archived && t.row.value.leaseOwner.None?))
  {
  }

  lemma NewerRefuses(s: System, t: System, held: ConnectionRecord, candidate: ConnectionRecord, owner: Uuid,
                     release: bool, lease: real)
    requires s.row.Some? && t.row.Some? && t.row.value.version >= s.row.value.version
    requires s.row.value.health.state == Archived ==> t.row == s.row
    requires held.version < s.row.value.version || (s.row.value.health.state == Archived &&
        s.row.value.leaseOwner.None?)
    requires candidate.version == held.version
    ensures Refused(t.row, candidate, owner, release, lease, t.now)
  {
  }

  // ---- no lost update ----

  /** Whoever presents a record handed out earlier, possibly with changed fields, and is accepted,
      overwrites exactly the row value it was handed. */
  lemma NoLostUpdate(maxRetries: nat, events: seq<Event>, held: ConnectionRecord, candidate: ConnectionRecord,
                     owner: Uuid, release: bool, lease: real)
    requires maxRetries >= 1 && OrderlyRun(Initial(maxRetries), events)
    requires held in Run(Initial(maxRetries), events).issued && candidate.version == held.version
    requires candidate.fence == held.fence
    ensures var s := Run(Initial(maxRetries), events);
            !Refused(s.row, candidate, owner, release, lease, s.now) ==> s.row == Some(held)
  {
    Reachable(maxRetries, events);
  }

  /** Every loop step that writes the row raises its version by one and overwrites the record the
      loop last received; only a claim has no such record. */
  lemma LoopsOverwriteWhatTheyReceived(maxRetries: nat, events: seq<Event>, id: nat, input: Input)
    requires maxRetries >= 1 && OrderlyRun(Initial(maxRetries), events)
    requires var s := Run(Initial(maxRetries), events); id in s.loops && Step(s, Act(id, input)).row != s.row
    ensures
      var s := Run(Initial(maxRetries), events);
      var pc := s.loops[id].pc;
      var t := Step(s, Act(id, input));
      && s.row.Some? && t.row.Some? && t.row.value.version == s.row.value.version + 1
      && (pc.Starting? || ((pc.Renewing? || pc.Saving? || pc.Monitoring? || pc.FailClosing?) &&
          s.row == Some(pc.record)))
  {
    Reachable(maxRetries, events);
    LoopWrites(Run(Initial(maxRetries), events), id, input);
  }

  lemma LoopWrites(s: System, id: nat, input: Input)
    requires Inv(s) && id in s.loops && Step(s, Act(id, input)).row != s.row
    ensures
      var pc := s.loops[id].pc;
      var t := Step(s, Act(id, input));
      && s.row.Some? && t.row.Some? && t.row.value.version == s.row.value.version + 1
      && (pc.Starting? || ((pc.Renewing? || pc.Saving? || pc.Monitoring? || pc.FailClosing?) &&
          s.row == Some(pc.record)))
  {
    assert PcInv(s, s.loops[id]);
    AdvanceMoves(s, s.loops[id], input);
  }

  /** On every record a supervisor holds, the dictionary repository and the SQL repository agree:
      renewing the caller's record is renewing the row. */
  lemma RepositoriesAgree(maxRetries: nat, events: seq<Event>, held: ConnectionRecord, u: Update, owner: Uuid,
                          lease: real)
    requires maxRetries >= 1 && OrderlyRun(Initial(maxRetries), events)
    requires held in Run(Initial(maxRetries), events).issued
    ensures
      var s := Run(Initial(maxRetries), events);
      var updated := Updated(held, u, s.now);
      && MemorySaveClaimed(s.row, updated, owner, u.release, s.now)
        == SqlSaveClaimed(s.row, updated, owner, u.release, s.now)
      && MemoryRenewLease(s.row, held, owner, lease, s.now) == SqlRenewLease(s.row, held, owner, lease, s.now)
      && MemoryFailClosed(s.row, held, owner, s.now) == SqlFailClosed(s.row, held, owner, s.now)
  {
    Reachable(maxRetries, events);
  }

  // ---- lease windows ----

  predicate Covers(w: Window, t: Instant) {
    w.start <= t < w.until
  }

  /** The lease windows of a run are disjoint and their fences grow: a claim succeeds only after the
      window before it has ended or was given up. The row's lease is the last window. */
  lemma LeaseWindowsDisjoint(maxRetries: nat, events: seq<Event>)
    requires maxRetries >= 1 && OrderlyRun(Initial(maxRetries), events)
    ensures
      var s := Run(Initial(maxRetries), events);
      && (forall i, j :: 0 <= i < j < |s.windows| ==> s.windows[i].fence < s.windows[j].fence)
      && (forall i, j, t {:trigger Covers(s.windows[i], t), Covers(s.windows[j], t)} ::
            0 <= i < |s.windows| && 0 <= j < |s.windows| && Covers(s.windows[i], t) && Covers(s.windows[j], t) ==>
                i == j)
      && (s.row.Some? && s.row.value.leaseOwner.Some? ==>
            && s.windows != []
            && var last := s.windows[|s.windows| - 1];
               && s.row.value.leaseOwner == Some(last.owner) && s.row.value.fence == last.fence
               && s.row.value.leaseExpiresAt == Some(last.until))
  {
    Reachable(maxRetries, events);
    var s := Run(Initial(maxRetries), events);
    forall i, j, t | 0 <= i < j < |s.windows|
      ensures !(Covers(s.windows[i], t) && Covers(s.windows[j], t))
    {
      assert s.windows[i].until <= s.windows[j].start;
    }
  }

  // ---- retries ----

  /** At most maxRetries failures are persisted between two `active` saves, plus one for every resume
      by an operator; the persisted counter is that number. */
  lemma RetriesAreBounded(maxRetries: nat, events: seq<Event>)
    requires maxRetries >= 1 && OrderlyRun(Initial(maxRetries), events)
    ensures
      var s := Run(Initial(maxRetries), events);
      s.row.Some? ==> s.row.value.retryCount == s.failures <= maxRetries + s.resumes
  {
    Reachable(maxRetries, events);
    MaxRetriesFixed(Initial(maxRetries), events);
  }

  lemma {:induction false} MaxRetriesFixed(s: System, events: seq<Event>)
    ensures Run(s, events).maxRetries == s.maxRetries
    decreases |events|
  {
    if events != [] {
      MaxRetriesFixed(Step(s, events[0]), events[1..]);
    }
  }
}
