/** Any number of phone and QR authorization flows over one challenge store.

    A flow claims its challenge, calls the network client, and finishes; other flows run in between.
    Time only moves forward. A flow that never answers or never ends stands for a cancelled one. */
module ChallengeFlows {
  import opened Common
  import opened ChallengeStore

  /** `Confirm` is the end of `PhoneAdapter.start`, after the code was requested (or not). The others
      call the client under their claim: sign_in, check_password, complete_qr, export_session. */
  datatype Kind = Confirm(sent: bool) | SubmitCode | SubmitPassword | CompleteQr | Consume

  function Expected(kind: Kind): State {
    match kind
    case SubmitPassword => Needs2fa
    case Consume => Authorized
    case _ => CodeSent
  }

  datatype Pc =
    | Calling(id: Uuid, kind: Kind, userId: Option<nat>)
    | Finishing(id: Uuid, state: State)
    | Over

  datatype Flow = Flow(owner: Uuid, pc: Pc)

  /** How the client answers; `Identity` is a signed-in user, `Session` an exported session. */
  datatype Answer = Identity(userId: int) | PasswordRequired | QrExpired | Session(payload: string) | ClientError

  /** A session handed out: the challenge, who got it, and for which Telegram user. */
  datatype Consumption = Consumption(id: Uuid, owner: Uuid, userId: nat)

  /** When a challenge became authorized, its deadline, and the identity that was accepted. */
  datatype Acceptance = Acceptance(at: Instant, deadline: Instant, userId: nat)

  /** `creators`, `accepted` and `consumed` are histories. */
  datatype System = System(
    limits: Limits,
    store: Store,
    now: Instant,
    nextId: Uuid,
    creators: map<Uuid, Uuid>,
    flows: map<nat, Flow>,
    accepted: map<Uuid, Acceptance>,
    consumed: seq<Consumption>)

  datatype Event =
    | Elapse(seconds: real)
    | Create(owner: Uuid, wait: real)
    | Begin(flow: nat, id: Uuid, owner: Uuid, kind: Kind, wait: real)
    | Reply(flow: nat, answer: Answer)
    | End(flow: nat)
    | Observe(id: Uuid, owner: Uuid, wait: real)

  function Initial(limits: Limits): System {
    System(limits, Store([], []), 0.0, 0, map[], map[], map[], [])
  }

  /** Where a flow goes when the client answers. */
  function AfterReply(id: Uuid, kind: Kind, answer: Answer): Pc {
    match kind
    case SubmitCode =>
      Finishing(id, if answer.Identity? && answer.userId > 0 then Authorized
        else if answer.PasswordRequired? then Needs2fa else Failed)
    case SubmitPassword =>
      Finishing(id, if answer.Identity? && answer.userId > 0 then Authorized else Failed)
    case CompleteQr =>
      Finishing(id, if answer.Identity? && answer.userId > 0 then Authorized
        else if answer.QrExpired? then Expired else CodeSent)
    case _ => Finishing(id, Failed)
  }

  predicate SignsIn(kind: Kind, answer: Answer) {
    !kind.Confirm? && !kind.Consume? && answer.Identity? && answer.userId > 0
  }

  /** The claimant writes the identity into its challenge object. */
  function WithUser(s: Store, id: Uuid, userId: nat): Store {
    var found := Find(s.active, id);
    if found.None? then s else s.(active := Replace(s.active, found.value.(userId := Some(userId))))
  }

  function AfterClaim(id: Uuid, kind: Kind, claim: Claim): Pc {
    match claim
    case Denied(_) => Over
    case Claimed(c) =>
      if kind.Confirm? then Finishing(id, if kind.sent then CodeSent else Failed)
      else if kind.Consume? && (c.userId.None? || !c.hasClient) then Over
      else Calling(id, kind, c.userId)
  }

  function Began(s: System, flow: nat, id: Uuid, owner: Uuid, kind: Kind, later: Instant): System {
    var (store, claim) := ClaimOf(s.limits, s.store, id, owner, Expected(kind), s.now, later);
    s.(store := store, now := later, flows := s.flows[flow := Flow(owner, AfterClaim(id, kind, claim))])
  }

  function Replied(s: System, flow: nat, answer: Answer): System
    requires flow in s.flows && s.flows[flow].pc.Calling?
  {
    var f := s.flows[flow];
    var id, kind := f.pc.id, f.pc.kind;
    s.(store := if SignsIn(kind, answer) then WithUser(s.store, id, answer.userId) else s.store,
       flows := s.flows[flow := f.(pc := AfterReply(id, kind, answer))],
       consumed := if kind.Consume? && answer.Session? && answer.payload != [] && f.pc.userId.Some?
                   then s.consumed + [Consumption(id, f.owner, f.pc.userId.value)] else s.consumed)
  }

  /** The identity that the challenge holds. */
  function UserOf(s: Store, id: Uuid): nat {
    var found := Find(s.active, id);
    if found.Some? && found.value.userId.Some? then found.value.userId.value else 0
  }

  function Finished(s: System, flow: nat): System
    requires flow in s.flows && s.flows[flow].pc.Finishing?
  {
    var f := s.flows[flow];
    var (store, step) := Finish(s.limits, s.store, f.pc.id, f.pc.state, s.now);
    s.(store := store,
       flows := s.flows[flow := f.(pc := Over)],
       accepted := if step.state == Authorized
                   then s.accepted[f.pc.id := Acceptance(s.now, step.expiresAt, UserOf(s.store, f.pc.id))]
                     else s.accepted)
  }

  function Step(s: System, e: Event): System {
    match e
    case Elapse(seconds) => if seconds < 0.0 then s else s.(now := s.now + seconds)
    case Create(owner, wait) =>
      if wait < 0.0 || !s.limits.Accepted() then s
      else
        s.(store := ChallengeStore.Create(s.limits, s.store, s.nextId, owner, s.now, s.now + wait).0,
           now := s.now + wait, nextId := s.nextId + 1, creators := s.creators[s.nextId := owner])
    case Begin(flow, id, owner, kind, wait) =>
      if wait < 0.0 || flow in s.flows then s else Began(s, flow, id, owner, kind, s.now + wait)
    case Reply(flow, answer) =>
      if flow in s.flows && s.flows[flow].pc.Calling? then Replied(s, flow, answer) else s
    case End(flow) =>
      if flow in s.flows && s.flows[flow].pc.Finishing? then Finished(s, flow) else s
    case Observe(id, owner, wait) =>
      if wait < 0.0 then s
      else s.(store := Status(s.limits, s.store, id, owner, s.now, s.now + wait).0, now := s.now + wait)
  }

  function Run(s: System, events: seq<Event>): System
    decreases |events|
  {
    if events == [] then s else Run(Step(s, events[0]), events[1..])
  }
}
