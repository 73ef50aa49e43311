/** The append-only approval history (apps/api, 0001_policy_gate.py and policy/repository.py).

    Two database functions are the only writers; updates and deletions are refused by triggers. Times
    are transaction start times, so they need not be ordered. */
module PolicyHistory {
  import opened Common

  datatype Channel = MtprotoUser | BotApi
  datatype Category = MessageText | MessageMetadata | AttachmentText | VoiceTranscript
  datatype Operation = Draft | AutoReply | Summarize | Classify

  datatype Request = Request(
    organization: Uuid,
    channels: set<Channel>,
    categories: set<Category>,
    operations: set<Operation>,
    terms: string,
    expiresAt: Instant)

  /** A stored row: the scopes are arrays. */
  datatype Row = Row(
    organization: Uuid,
    channels: seq<Channel>,
    categories: seq<Category>,
    operations: seq<Operation>,
    terms: string,
    approvedBy: Uuid,
    approvedAt: Instant,
    expiresAt: Instant)

  datatype Revocation = Revocation(revokedBy: Uuid, revokedAt: Instant)

  datatype Action = Created | Revoked

  datatype AuditEvent = AuditEvent(approval: Uuid, action: Action, actor: Uuid, at: Instant)

  datatype History = History(records: map<Uuid, Row>, revocations: map<Uuid, Revocation>, events: map<Uuid, AuditEvent>)

  /** The validated value object that callers see. */
  datatype Approval = Approval(
    id: Uuid,
    organization: Uuid,
    channels: set<Channel>,
    categories: set<Category>,
    operations: set<Operation>,
    terms: string,
    approvedBy: Uuid,
    approvedAt: Instant,
    expiresAt: Instant,
    revokedAt: Option<Instant>)

  datatype Outcome = Stored(approval: Approval) | Rejected | Unavailable

  const EMPTY := History(map[], map[], map[])

  /** The values in alphabetical order, as the writer binds them. */
  function ChannelArray(s: set<Channel>): seq<Channel> {
    (if BotApi in s then [BotApi] else []) + (if MtprotoUser in s then [MtprotoUser] else [])
  }

  function CategoryArray(s: set<Category>): seq<Category> {
    (if AttachmentText in s then [AttachmentText] else []) + (if MessageMetadata in s then [MessageMetadata] else [])
    + (if MessageText in s then [MessageText] else []) + (if VoiceTranscript in s then [VoiceTranscript] else [])
  }

  function OperationArray(s: set<Operation>): seq<Operation> {
    (if AutoReply in s then [AutoReply] else []) + (if Classify in s then [Classify] else [])
    + (if Draft in s then [Draft] else []) + (if Summarize in s then [Summarize] else [])
  }

  function Elements<T(==)>(s: seq<T>): set<T> {
    set x | x in s
  }

  function RowOf(q: Request, actor: Uuid, now: Instant): Row {
    Row(q.organization, ChannelArray(q.channels), CategoryArray(q.categories), OperationArray(q.operations), q.terms,
        actor, now, q.expiresAt)
  }

  function Projected(id: Uuid, row: Row, revokedAt: Option<Instant>): Approval {
    Approval(id, row.organization, Elements(row.channels), Elements(row.categories), Elements(row.operations),
             row.terms, row.approvedBy, row.approvedAt, row.expiresAt, revokedAt)
  }

  /** What the value object refuses. */
  predicate Validates(a: Approval) {
    && a.channels != {} && a.categories != {} && a.operations != {}
    && a.approvedAt < a.expiresAt
    && (a.revokedAt.Some? ==> a.approvedAt <= a.revokedAt.value)
  }

  /** The row is read back after the commit, so an unreadable one is reported as unavailable although
      it is stored. */
  function ReadBack(id: Uuid, row: Row, revokedAt: Option<Instant>): Outcome {
    var a := Projected(id, row, revokedAt);
    if Validates(a) then Stored(a) else Unavailable
  }

  /** The table's own checks. */
  predicate RowAllowed(row: Row) {
    row.channels != [] && row.categories != [] && row.operations != [] && row.approvedAt < row.expiresAt
  }

  function Grant(h: History, id: Uuid, event: Uuid, q: Request, actor: Uuid, now: Instant): (History, Outcome) {
    var row := RowOf(q, actor, now);
    if q.expiresAt <= now then (h, Rejected)
    else if id in h.records || !RowAllowed(row) || event in h.events then (h, Unavailable)
    else
      (h.(records := h.records[id := row], events := h.events[event := AuditEvent(id, Created, actor, now)]),
          ReadBack(id, row, None))
  }

  function Revoke(h: History, id: Uuid, event: Uuid, actor: Uuid, now: Instant): (History, Outcome) {
    if id !in h.records then (h, Rejected)
    else if id in h.revocations then (h, ReadBack(id, h.records[id], Some(h.revocations[id].revokedAt)))
    else if event in h.events then (h, Unavailable)
    else
      (h.(revocations := h.revocations[id := Revocation(actor, now)],
          events := h.events[event := AuditEvent(id, Revoked, actor, now)]),
       ReadBack(id, h.records[id], Some(now)))
  }

  class ApprovalHistory {
    var history: History

    constructor ()
      ensures history == EMPTY
    {
      history := EMPTY;
    }

    method PolicyGrantAiApproval(id: Uuid, event: Uuid, q: Request, actor: Uuid, now: Instant) returns (r: Outcome)
      modifies this
      ensures (history, r) == Grant(old(history), id, event, q, actor, now)
    {
      if q.expiresAt <= now {
        return Rejected;
      }
      var before := history;
      var row := RowOf(q, actor, now);
      if id in history.records || !RowAllowed(row) {
        return Unavailable;
      }
      history := history.(records := history.records[id := row]);
      if event in history.events {
        history := before;
        return Unavailable;
      }
      history := history.(events := history.events[event := AuditEvent(id, Created, actor, now)]);
      r := ReadBack(id, history.records[id], None);
    }

    method PolicyRevokeAiApproval(id: Uuid, event: Uuid, actor: Uuid, now: Instant) returns (r: Outcome)
      modifies this
      ensures (history, r) == Revoke(old(history), id, event, actor, now)
    {
      if id !in history.records {
        return Rejected;
      }
      var before := history;
      var revokedAt: Option<Instant> := None;
      if id !in history.revocations {
        history := history.(revocations := history.revocations[id := Revocation(actor, now)]);
        revokedAt := Some(now);
      }
      if revokedAt.Some? {
        if event in history.events {
          history := before;
          return Unavailable;
        }
        history := history.(events := history.events[event := AuditEvent(id, Revoked, actor, revokedAt.value)]);
      } else {
        revokedAt := Some(history.revocations[id].revokedAt);
      }
      r := ReadBack(id, history.records[id], revokedAt);
    }
  }

  datatype Write =
    | Granting(id: Uuid, event: Uuid, request: Request, actor: Uuid, now: Instant)
    | Revoking(id: Uuid, event: Uuid, actor: Uuid, now: Instant)

  function Step(h: History, w: Write): History {
    match w
    case Granting(id, event, q, actor, now) => Grant(h, id, event, q, actor, now).0
    case Revoking(id, event, actor, now) => Revoke(h, id, event, actor, now).0
  }

  function Run(h: History, writes: seq<Write>): History
    decreases |writes|
  {
    if writes == [] then h else Run(Step(h, writes[0]), writes[1..])
  }

  // ---- what is kept ----

  /** The approval has exactly one event of that action, with that actor and time. */
  ghost predicate OneEvent(h: History, id: Uuid, action: Action, actor: Uuid, at: Instant) {
    exists e :: e in h.events && h.events[e] == AuditEvent(id, action, actor, at) && OnlyEvent(h, e)
  }

  /** No other event has this one's approval and action. */
  predicate OnlyEvent(h: History, e: Uuid)
    requires e in h.events
  {
    forall f <- h.events ::
      (h.events[f].approval == h.events[e].approval && h.events[f].action == h.events[e].action) ==> f == e
  }

  ghost predicate Audited(h: History) {
    && (forall id <- h.records :: OneEvent(h, id, Created, h.records[id].approvedBy, h.records[id].approvedAt))
    && (forall id <- h.revocations :: OneEvent(h, id, Revoked, h.revocations[id].revokedBy,
        h.revocations[id].revokedAt))
    && (forall e <- h.events :: h.events[e].approval in if h.events[e].action == Created then h.records.Keys
      else h.revocations.Keys)
  }

  ghost predicate Inv(h: History) {
    && Audited(h)
    && h.revocations.Keys <= h.records.Keys
    && (forall id <- h.records :: RowAllowed(h.records[id]))
  }

  /** Nothing that was written is ever changed or removed. */
  predicate Extends(h: History, h': History) {
    && (forall id <- h.records :: id in h'.records && h'.records[id] == h.records[id])
    && (forall id <- h.revocations :: id in h'.revocations && h'.revocations[id] == h.revocations[id])
    && (forall e <- h.events :: e in h'.events && h'.events[e] == h.events[e])
  }

  /** Adding an event that is not about (id, action) leaves its one event. */
  lemma OneEventKept(h: History, h': History, id: Uuid, action: Action, actor: Uuid, at: Instant, event: Uuid,
                     made: AuditEvent)
    requires OneEvent(h, id, action, actor, at)
    requires event !in h.events && h'.events == h.events[event := made]
    requires (made.approval != id || made.action != action)
    ensures OneEvent(h', id, action, actor, at)
  {
    var e :| e in h.events && h.events[e] == AuditEvent(id, action, actor, at) && OnlyEvent(h, e);
    assert e in h'.events && OnlyEvent(h', e);
  }

  lemma OneEventMade(h: History, h': History, event: Uuid, made: AuditEvent)
    requires forall f <- h.events :: h.events[f].approval != made.approval || h.events[f].action != made.action
    requires event !in h.events && h'.events == h.events[event := made]
    ensures OneEvent(h', made.approval, made.action, made.actor, made.at)
  {
    assert event in h'.events && OnlyEvent(h', event);
  }

  /** Every audited write keeps its one event when another one is added. */
  lemma AuditKept(h: History, h': History, event: Uuid, made: AuditEvent)
    requires Audited(h) && event !in h.events && h'.events == h.events[event := made]
    requires made.approval !in if made.action == Created then h.records.Keys else h.revocations.Keys
    ensures forall a <- h.records :: OneEvent(h', a, Created, h.records[a].approvedBy, h.records[a].approvedAt)
    ensures forall a <- h.revocations :: OneEvent(h', a, Revoked, h.revocations[a].revokedBy,
        h.revocations[a].revokedAt)
    ensures OneEvent(h', made.approval, made.action, made.actor, made.at)
  {
    OneEventMade(h, h', event, made);
    forall a | a in h.records
      ensures OneEvent(h', a, Created, h.records[a].approvedBy, h.records[a].approvedAt)
    {
      OneEventKept(h, h', a, Created, h.records[a].approvedBy, h.records[a].approvedAt, event, made);
    }
    forall a | a in h.revocations
      ensures OneEvent(h', a, Revoked, h.revocations[a].revokedBy, h.revocations[a].revokedAt)
    {
      OneEventKept(h, h', a, Revoked, h.revocations[a].revokedBy, h.revocations[a].revokedAt, event, made);
    }
  }

  lemma GrantKeepsInv(h: History, id: Uuid, event: Uuid, q: Request, actor: Uuid, now: Instant)
    requires Inv(h)
    ensures Inv(Grant(h, id, event, q, actor, now).0)
  {
    var h' := Grant(h, id, event, q, actor, now).0;
    hide OneEvent, ReadBack, ChannelArray, CategoryArray, OperationArray;
    if h' != h {
      AuditKept(h, h', event, AuditEvent(id, Created, actor, now));
    }
  }

  lemma RevokeKeepsInv(h: History, id: Uuid, event: Uuid, actor: Uuid, now: Instant)
    requires Inv(h)
    ensures Inv(Revoke(h, id, event, actor, now).0)
  {
    var h' := Revoke(h, id, event, actor, now).0;
    hide OneEvent, ReadBack, RowAllowed;
    if h' != h {
      AuditKept(h, h', event, AuditEvent(id, Revoked, actor, now));
    }
  }

  lemma StepExtends(h: History, w: Write)
    ensures Extends(h, Step(h, w))
  {
  }

  lemma StepKeepsInv(h: History, w: Write)
    requires Inv(h)
    ensures Inv(Step(h, w)) && Extends(h, Step(h, w))
  {
    hide Inv;
    StepExtends(h, w);
    match w
    case Granting(id, event, q, actor, now) => GrantKeepsInv(h, id, event, q, actor, now);
    case Revoking(id, event, actor, now) => RevokeKeepsInv(h, id, event, actor, now);
  }

  /** Over every run the history is append-only and stays audited. */
  lemma {:induction false} RunKeepsInv(h: History, writes: seq<Write>)
    requires Inv(h)
    ensures Inv(Run(h, writes)) && Extends(h, Run(h, writes))
    decreases |writes|
  {
    if writes != [] {
      StepKeepsInv(h, writes[0]);
      RunKeepsInv(Step(h, writes[0]), writes[1..]);
    }
  }

  /** In every reachable history each approval has exactly one `created` event, by the approver at the
      approval time; a `revoked` event exists exactly for a revoked approval, is the only one, and has
      the revocation's actor and time; and every event is about a recorded approval. */
  lemma EveryChangeIsAuditedOnce(writes: seq<Write>, id: Uuid)
    ensures
      var h := Run(EMPTY, writes);
      && (id in h.records ==> OneEvent(h, id, Created, h.records[id].approvedBy, h.records[id].approvedAt))
      && (id in h.revocations ==> OneEvent(h, id, Revoked, h.revocations[id].revokedBy, h.revocations[id].revokedAt))
      && (id in h.records <==> exists e <- h.events :: h.events[e].approval == id && h.events[e].action == Created)
      && (id in h.revocations <==> exists e <- h.events :: h.events[e].approval == id && h.events[e].action == Revoked)
  {
    RunKeepsInv(EMPTY, writes);
  }

  /** A second revocation, whenever it comes and whoever makes it, writes nothing and reports the
      time of the first. */
  lemma RevocationIsIdempotent(h: History, id: Uuid, event: Uuid, actor: Uuid, now: Instant, writes: seq<Write>,
                               event': Uuid, actor': Uuid, now': Instant)
    requires Inv(h) && id in h.records && id !in h.revocations && event !in h.events
    ensures
      var (first, outcome) := Revoke(h, id, event, actor, now);
      var later := Run(first, writes);
      Revoke(later, id, event', actor', now') == (later, outcome)
  {
    hide Inv, Run;
    var first := Revoke(h, id, event, actor, now).0;
    StepKeepsInv(h, Revoking(id, event, actor, now));
    RunKeepsInv(first, writes);
  }

  lemma StoredRowHasScopes(h: History, id: Uuid)
    requires Inv(h) && id in h.records
    ensures
      var row := h.records[id];
      row.approvedAt < row.expiresAt && Elements(row.channels) != {} && Elements(row.categories) != {} &&
          Elements(row.operations) != {}
  {
    var row := h.records[id];
    assert RowAllowed(row);
    assert row.channels[0] in Elements(row.channels);
    assert row.categories[0] in Elements(row.categories);
    assert row.operations[0] in Elements(row.operations);
  }

  /** A first revocation is always stored; it is reported as stored exactly when its transaction did
      not start before the one that approved, and as unavailable otherwise. */
  lemma RevocationReportedExactly(h: History, id: Uuid, event: Uuid, actor: Uuid, now: Instant)
    requires Inv(h) && id in h.records && id !in h.revocations && event !in h.events
    ensures
      var (h', outcome) := Revoke(h, id, event, actor, now);
      && h'.revocations == h.revocations[id := Revocation(actor, now)]
      && (outcome.Stored? <==> h.records[id].approvedAt <= now)
      && (!outcome.Stored? ==> outcome == Unavailable)
  {
    StoredRowHasScopes(h, id);
  }

  /** Such a history and such a revocation: the approval is dated one second after the revocation. */
  lemma UnreportedRevocation(q: Request)
    requires q.channels != {} && q.categories != {} && q.operations != {} && q.expiresAt > 1.0
    ensures
      var h := Run(EMPTY, [Granting(0, 0, q, 7, 1.0)]);
      var (h', outcome) := Revoke(h, 0, 1, 7, 0.0);
      0 in h.records && 0 in h'.revocations && outcome == Unavailable
  {
    var writes := [Granting(0, 0, q, 7, 1.0)];
    GrantReadsBack(EMPTY, 0, 0, q, 7, 1.0);
    assert writes[1..] == [];
    assert Run(EMPTY, writes) == Step(EMPTY, writes[0]);
    RunKeepsInv(EMPTY, writes);
    hide Inv, Run;
    RevocationReportedExactly(Run(EMPTY, writes), 0, 1, 7, 0.0);
  }

  lemma ArraysRoundTrip(channels: set<Channel>, categories: set<Category>, operations: set<Operation>)
    ensures Elements(ChannelArray(channels)) == channels
    ensures Elements(CategoryArray(categories)) == categories
    ensures Elements(OperationArray(operations)) == operations
  {
    forall c: Channel
      ensures c in ChannelArray(channels) <==> c in channels
    {
      match c case MtprotoUser => case BotApi =>
    }
    forall c: Category
      ensures c in CategoryArray(categories) <==> c in categories
    {
      match c case MessageText => case MessageMetadata => case AttachmentText => case VoiceTranscript =>
    }
    forall o: Operation
      ensures o in OperationArray(operations) <==> o in operations
    {
      match o case Draft => case AutoReply => case Summarize => case Classify =>
    }
  }

  /** A granted approval reads back as what was requested; it is granted exactly when its expiry is
      in the future, its scopes are not empty and both ids are new. */
  lemma GrantReadsBack(h: History, id: Uuid, event: Uuid, q: Request, actor: Uuid, now: Instant)
    ensures
      var outcome := Grant(h, id, event, q, actor, now).1;
      && (outcome.Stored? <==> now < q.expiresAt && q.channels != {} && q.categories != {} && q.operations != {}
                               && id !in h.records && event !in h.events)
      && (outcome.Stored? ==>
            outcome.approval == Approval(id, q.organization, q.channels, q.categories, q.operations, q.terms, actor,
                now, q.expiresAt, None))
  {
    ArraysRoundTrip(q.channels, q.categories, q.operations);
    EmptyExactly(ChannelArray(q.channels));
    EmptyExactly(CategoryArray(q.categories));
    EmptyExactly(OperationArray(q.operations));
    hide ChannelArray, CategoryArray, OperationArray, Elements;
  }

  lemma EmptyExactly<T>(s: seq<T>)
    ensures s == [] <==> Elements(s) == {}
  {
    if s != [] {
      assert s[0] in Elements(s);
    }
  }
}
