/** The default-deny gate over the approval history (policy/service.py). */
module PolicyGate {
  import opened Common
  import opened PolicyHistory

  datatype Context = Context(organization: Uuid, channel: Channel, category: Category, operation: Operation)

  /** What the two context authorities make of a caller's context object. */
  datatype Resolution = RealTelegram(context: Context) | Synthetic | Untrusted

  datatype Reason = ApprovalMatched | ApprovalMissing | ApprovalUnavailable | ContextUntrusted | SyntheticNonTelegram

  datatype Decision = Decision(allowed: bool, reason: Reason, approval: Option<Uuid>)

  /** The WHERE clause over the records joined with their revocations. */
  predicate Selects(h: History, id: Uuid, c: Context, terms: string, now: Instant) {
    && id in h.records
    && var row := h.records[id];
       && row.organization == c.organization
       && c.channel in row.channels && c.category in row.categories && c.operation in row.operations
       && row.terms == terms
       && row.approvedAt <= now && row.expiresAt > now
       && id !in h.revocations
  }

  /** The check in the service, on the value object. */
  predicate Matches(a: Approval, c: Context, terms: string, now: Instant) {
    && a.organization == c.organization
    && c.channel in a.channels && c.category in a.categories && c.operation in a.operations
    && a.terms == terms
    && a.approvedAt <= now < a.expiresAt
    && a.revokedAt.None?
  }

  function RevokedAt(h: History, id: Uuid): Option<Instant> {
    if id in h.revocations then Some(h.revocations[id].revokedAt) else None
  }

  /** The query's filter and the service's check are the same condition on every stored record. */
  lemma FilterAndCheckAgree(h: History, id: Uuid, c: Context, terms: string, now: Instant)
    requires id in h.records
    ensures Selects(h, id, c, terms, now) <==> Matches(Projected(id, h.records[id], RevokedAt(h, id)), c, terms, now)
  {
    var row := h.records[id];
    assert c.channel in Elements(row.channels) <==> c.channel in row.channels;
  }

  /** A record of a reachable history that the query returns is never refused by validation. */
  lemma SelectedValidates(h: History, id: Uuid, c: Context, terms: string, now: Instant)
    requires Inv(h) && Selects(h, id, c, terms, now)
    ensures Validates(Projected(id, h.records[id], None))
  {
    StoredRowHasScopes(h, id);
  }

  /** The query has LIMIT 1 and no order: any selected record may come. */
  method FindMatching(h: History, c: Context, terms: string, now: Instant) returns (r: Option<Approval>)
    ensures r.Some? ==>
      Selects(h, r.value.id, c, terms, now) && r.value == Projected(r.value.id, h.records[r.value.id], None)
    ensures r.None? ==> forall id :: !Selects(h, id, c, terms, now)
  {
    if id :| id in h.records && Selects(h, id, c, terms, now) {
      return Some(Projected(id, h.records[id], RevokedAt(h, id)));
    }
    return None;
  }

  /** `works` is whether the repository answers; `harness` is whether a synthetic authority is installed. */
  method Evaluate(h: History, resolution: Resolution, harness: bool, terms: string, now: Instant,
                  works: bool) returns (d: Decision)
    requires Inv(h)
    ensures d.allowed <==> d.reason == ApprovalMatched || d.reason == SyntheticNonTelegram
    ensures d.reason == SyntheticNonTelegram <==> resolution.Synthetic? && harness
    ensures d.reason == ApprovalMatched <==>
      resolution.RealTelegram? && works && exists id :: Selects(h, id, resolution.context, terms, now)
    ensures d.reason == ApprovalMissing <==>
      resolution.RealTelegram? && works && forall id :: !Selects(h, id, resolution.context, terms, now)
    ensures d.approval.Some? <==> d.reason == ApprovalMatched
    ensures d.approval.Some? ==>
      resolution.RealTelegram? && Selects(h, d.approval.value, resolution.context, terms, now)
    ensures d.reason == ContextUntrusted <==> !(resolution.RealTelegram? || (resolution.Synthetic? && harness))
    ensures d.reason == ApprovalUnavailable <==> resolution.RealTelegram? && !works
  {
    match resolution {
      case Synthetic =>
        return if harness then Decision(true, SyntheticNonTelegram, None) else Decision(false, ContextUntrusted, None);
      case Untrusted =>
        return Decision(false, ContextUntrusted, None);
      case RealTelegram(c) =>
        if !works {
          return Decision(false, ApprovalUnavailable, None);
        }
        var found := FindMatching(h, c, terms, now);
        if found.None? {
          return Decision(false, ApprovalMissing, None);
        }
        var a := found.value;
        SelectedValidates(h, a.id, c, terms, now);
        FilterAndCheckAgree(h, a.id, c, terms, now);
        if !Validates(a) {
          return Decision(false, ApprovalUnavailable, None);
        }
        if !Matches(a, c, terms, now) {
          return Decision(false, ApprovalMissing, None);
        }
        return Decision(true, ApprovalMatched, Some(a.id));
    }
  }

  /** What was granted is what is allowed: the new approval is selected exactly for the requested organization, for
      each requested channel, category and operation, under the requested terms, and from the grant until the expiry.
      A change of any of these that leaves the request leaves nothing allowed by it. */
  lemma GrantAllowsExactly(h: History, id: Uuid, event: Uuid, q: Request, actor: Uuid, granted: Instant, c: Context,
                           terms: string, now: Instant)
    requires Inv(h) && Grant(h, id, event, q, actor, granted).1.Stored?
    ensures Selects(Grant(h, id, event, q, actor, granted).0, id, c, terms, now) <==>
      && c.organization == q.organization
      && c.channel in q.channels && c.category in q.categories && c.operation in q.operations
      && terms == q.terms && granted <= now < q.expiresAt
  {
    GrantReadsBack(h, id, event, q, actor, granted);
    ArraysRoundTrip(q.channels, q.categories, q.operations);
    assert c.channel in Elements(ChannelArray(q.channels)) <==> c.channel in q.channels;
    assert c.category in Elements(CategoryArray(q.categories)) <==> c.category in q.categories;
    assert c.operation in Elements(OperationArray(q.operations)) <==> c.operation in q.operations;
  }

  /** Over every later run, at any time and under any terms, a revoked approval allows nothing again. */
  lemma RevokedNeverAllows(h: History, id: Uuid, writes: seq<Write>, c: Context, terms: string, now: Instant)
    requires Inv(h) && id in h.revocations
    ensures !Selects(Run(h, writes), id, c, terms, now)
  {
    RunKeepsInv(h, writes);
  }

  /** An approval can be lost only by revocation: until then every later history allows what it allowed. */
  lemma UnrevokedStillAllows(h: History, id: Uuid, writes: seq<Write>, c: Context, terms: string, now: Instant)
    requires Inv(h) && Selects(h, id, c, terms, now)
    ensures Selects(Run(h, writes), id, c, terms, now) <==> id !in Run(h, writes).revocations
  {
    RunKeepsInv(h, writes);
  }
}
