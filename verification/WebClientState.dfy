/** The web client's session service and gateway as one state.  Code between two awaits is one step;
    a step that finds its preconditions gone takes the error path the service takes. */
module WebClientState {
  import opened Wrappers

  type Guid = nat
  type Hash = nat       // of a ticket; tickets are random, so hashes identify them
  type Uuid = nat
  type ChannelId = nat

  datatype Actor = Actor(id: nat, login: nat)

  datatype Kind = Desktop | File

  datatype Phase = Rendezvous | Relay

  datatype Session = Session(
    actor: Actor, target: nat, kind: Kind, parent: Option<Guid>,
    createdAt: int, expiresAt: int, profile: nat, epoch: nat,
    relay: Option<Uuid>, active: bool, ticketHashes: set<Hash>, sockets: set<ChannelId>)

  datatype Ticket = Ticket(session: Guid, phase: Phase, expiresAt: int)

  /** `ticket` is the ticket the claim was redeemed for. */
  datatype Claim = Claim(session: Guid, phase: Phase, relay: Option<Uuid>, ticket: Hash)

  datatype Stage = AwaitingTicket | Authorizing | AwaitingRequest | Opening | AwaitingReply | Opaque

  /** The three places where the gateway has a session checked again. */
  datatype Check = TicketCheck(session: Guid, phase: Phase, ticket: Hash) | OpenCheck | RelayCheck

  /** What an asynchronous call of the gateway is waiting for; `Passed` checks wait for their continuation. */
  datatype Task =
    | Idle
    | Checking(check: Check) | Passed(check: Check)
    | Claimed(claim: Claim) | Connecting | AuditingRelay | RelayMarked

  datatype Frame = Request(relay: Option<Uuid>) | Payload

  /** `up` and `down` record the frames the channel has forwarded. */
  datatype Channel = Channel(
    stage: Stage, stopped: bool, claim: Option<Claim>, replied: bool, task: Task,
    request: Frame, up: seq<Frame>, down: nat)

  /** A session request between its reservation and its end. */
  datatype CreateStep = CheckingParent | Validating | Auditing(createdAt: int, expiresAt: int) | Denying

  datatype Create = Create(
    actor: Actor, target: nat, kind: Kind, parent: Option<Guid>, profile: nat, epoch: nat, step: CreateStep)

  datatype State = State(
    now: int, profile: nat, stopped: bool, destroyed: bool, epoch: nat, overdue: set<nat>,
    sessions: map<Guid, Session>, tickets: map<Hash, Ticket>, creates: map<Guid, Create>,
    channels: map<ChannelId, Channel>,
    // history: what was ever used, redeemed, ended, bound and audited
    used: set<Guid>, ended: set<Guid>, issued: set<Hash>, redeemed: set<Hash>,
    bound: map<Guid, Uuid>, boundBy: map<Guid, ChannelId>, audited: set<Guid>)

  const MAX_SESSIONS := 256
  const MAX_PER_ACTOR := 8
  const MAX_SOCKETS := 2
  const PENDING_MS := 120_000
  const TICKET_MS := 60_000
  const SESSION_MS := 28_800_000

  /** A live session that may still be used. */
  predicate Current(s: State, g: Guid) {
    && g in s.sessions && !s.stopped
    && s.now < s.sessions[g].expiresAt
    && (s.sessions[g].active || s.now - s.sessions[g].createdAt < PENDING_MS)
  }

  function Family(s: State, g: Guid): set<Guid> {
    if g in s.sessions then {g} + set h | h in s.sessions && s.sessions[h].parent == Some(g) else {}
  }

  /** End sessions: first all of them and their tickets, then the channels attached to them. */
  function Invalidate(s: State, dead: set<Guid>): State {
    var gone := set g | g in dead && g in s.sessions;
    s.(sessions := s.sessions - gone,
       tickets := map h | h in s.tickets && !(exists g :: g in gone && h in s.sessions[g].ticketHashes) :: s.tickets[h],
       channels := map c | c in s.channels ::
         if exists g :: g in gone && c in s.sessions[g].sockets then s.channels[c].(stopped := true) else s.channels[c],
       ended := s.ended + gone)
  }

  function CloseGrant(s: State, g: Guid): State {
    Invalidate(s, Family(s, g))
  }

  function Detach(s: State, g: Guid, c: ChannelId): State {
    if g in s.sessions then
      s.(sessions := s.sessions[g := s.sessions[g].(sockets := s.sessions[g].sockets - {c})])
    else s
  }

  /** Stop one channel; unless the grant is retained, its whole session family ends with it. */
  function Stop(s: State, c: ChannelId, retain: bool): State {
    if c !in s.channels || s.channels[c].stopped then s
    else
      var claim := s.channels[c].claim;
      var s1 := s.(channels := s.channels[c := s.channels[c].(stopped := true)]);
      if claim.None? then s1
      else
        var s2 := Detach(s1, claim.value.session, c);
        if retain then s2 else CloseGrant(s2, claim.value.session)
  }

  /** What a completed authorization check makes of a session: shorter expiry, or the end. */
  function Recheck(s: State, g: Guid, allowed: bool, loginExpiry: int): (r: (State, bool)) {
    if !allowed || !Current(s, g) then (CloseGrant(s, g), false)
    else
      var x := s.sessions[g];
      var x' := x.(expiresAt := if loginExpiry < x.expiresAt then loginExpiry else x.expiresAt);
      var s' := s.(sessions := s.sessions[g := x']);
      if x.profile != s.profile || !ParentAllows(s', x) || !Current(s', g) then (CloseGrant(s', g), false)
      else (s', true)
  }

  predicate ParentAllows(s: State, x: Session) {
    x.parent.Some? ==>
      Current(s, x.parent.value) && s.sessions[x.parent.value].active && s.sessions[x.parent.value].actor == x.actor
  }

  // ---- creating sessions ----

  function SessionsOf(s: State, actor: nat): set<Guid> {
    set g | g in s.sessions && s.sessions[g].actor.id == actor
  }

  function CreatesOf(s: State, actor: nat): set<Guid> {
    set g | g in s.creates && s.creates[g].actor.id == actor
  }

  predicate MayReserve(s: State, actor: nat) {
    |s.sessions| + |s.creates| < MAX_SESSIONS && |SessionsOf(s, actor)| + |CreatesOf(s, actor)| < MAX_PER_ACTOR
  }

  /** The parent a file session asks for: a current, active desktop session of the same login and target. */
  predicate ParentAvailable(s: State, actor: Actor, target: nat, parent: Option<Guid>) {
    && parent.Some? && Current(s, parent.value)
    && s.sessions[parent.value].actor == actor && s.sessions[parent.value].kind == Desktop
    && s.sessions[parent.value].target == target && s.sessions[parent.value].active
  }

  function BeginCreate(s: State, g: Guid, actor: Actor, target: nat, kind: Kind, parent: Option<Guid>): State {
    if g in s.used || s.stopped || s.overdue != {} || !MayReserve(s, actor.id) then s
    else
      var step :=
        if kind == File then (if ParentAvailable(s, actor, target, parent) then CheckingParent else Denying)
        else if parent.Some? then Denying else Validating;
      s.(used := s.used + {g}, creates := s.creates[g := Create(actor, target, kind, parent, s.profile, s.epoch, step)])
  }

  function SetStep(s: State, g: Guid, step: CreateStep): State
    requires g in s.creates
  {
    s.(creates := s.creates[g := s.creates[g].(step := step)])
  }

  function ParentChecked(s: State, g: Guid, allowed: bool, loginExpiry: int): State {
    if g !in s.creates || s.creates[g].step != CheckingParent || s.creates[g].parent.None? then s
    else
      var (s', ok) := Recheck(s, s.creates[g].parent.value, allowed, loginExpiry);
      SetStep(s', g, if ok then Validating else Denying)
  }

  function CreateValidated(s: State, g: Guid, allowed: bool, loginExpiry: int): State {
    if g !in s.creates || s.creates[g].step != Validating then s
    else if !allowed then SetStep(s, g, Denying)
    else
      var limit := if s.now + SESSION_MS < loginExpiry then s.now + SESSION_MS else loginExpiry;
      var p := s.creates[g].parent;
      var expiresAt :=
        if p.Some? && p.value in s.sessions && s.sessions[p.value].expiresAt < limit then s.sessions[p.value].expiresAt
        else limit;
      SetStep(s, g, Auditing(s.now, expiresAt))
  }

  function FreshSession(x: Create, tickets: set<Hash>): Session
    requires x.step.Auditing?
  {
    Session(x.actor, x.target, x.kind, x.parent, x.step.createdAt, x.step.expiresAt, x.profile, x.epoch,
            None, false, tickets, {})
  }

  /** The permission audit is stored: issue both tickets and the session, or deny after all. */
  function CreateAudited(s: State, g: Guid, stored: bool, rendezvous: Hash, relay: Hash): State {
    if g !in s.creates || !s.creates[g].step.Auditing? || rendezvous in s.issued || relay in s.issued || rendezvous == relay then s
    else
      var x := s.creates[g];
      if !stored || s.stopped || s.overdue != {} || x.epoch != s.epoch || x.profile != s.profile
         || x.step.expiresAt <= s.now || (x.parent.Some? && x.parent.value !in s.sessions)
      then SetStep(s, g, Denying)
      else
        var lifetime := if s.now + TICKET_MS < x.step.expiresAt then s.now + TICKET_MS else x.step.expiresAt;
        s.(creates := s.creates - {g},
           sessions := s.sessions[g := FreshSession(x, {rendezvous, relay})],
           tickets := s.tickets[rendezvous := Ticket(g, Rendezvous, lifetime)][relay := Ticket(g, Relay, lifetime)],
           issued := s.issued + {rendezvous, relay})
  }

  function CreateDenied(s: State, g: Guid): State {
    if g in s.creates && s.creates[g].step == Denying then s.(creates := s.creates - {g}) else s
  }

  // ---- channels ----

  const FRESH_CHANNEL := Channel(AwaitingTicket, false, None, false, Idle, Payload, [], 0)

  function Connect(s: State, c: ChannelId): State {
    if c in s.channels || s.destroyed then s else s.(channels := s.channels[c := FRESH_CHANNEL])
  }

  function SetChannel(s: State, c: ChannelId, ch: Channel): State {
    s.(channels := s.channels[c := ch])
  }

  predicate Running(s: State, c: ChannelId, task: Task) {
    c in s.channels && s.channels[c].task == task
  }

  /** Where a ticket leads: to a check of its session, or nowhere. */
  function TicketTask(s: State, h: Hash): Task {
    if h !in s.tickets then Idle
    else
      var t := s.tickets[h];
      if t.expiresAt <= s.now || !Current(s, t.session) || (t.phase == Relay && s.sessions[t.session].relay.None?) then Idle
      else Checking(TicketCheck(t.session, t.phase, h))
  }

  /** The ticket is spent before anything is awaited. */
  function ReceiveTicket(s: State, c: ChannelId, h: Hash): State {
    if c !in s.channels || s.channels[c].stopped || s.channels[c].stage != AwaitingTicket then s
    else
      SetChannel(Spend(s, h), c, s.channels[c].(stage := Authorizing, task := TicketTask(s, h)))
  }

  function Spend(s: State, h: Hash): State {
    if h in s.tickets then s.(tickets := s.tickets - {h}, redeemed := s.redeemed + {h}) else s
  }

  /** The session a check is about. */
  function CheckedSession(ch: Channel, check: Check): Option<Guid> {
    match check
    case TicketCheck(g, _, _) => Some(g)
    case _ => if ch.claim.Some? then Some(ch.claim.value.session) else None
  }

  function SetTask(s: State, c: ChannelId, task: Task): State
    requires c in s.channels
  {
    SetChannel(s, c, s.channels[c].(task := task))
  }

  /** A check of the session ended.  A call whose check failed throws; its handler stops the channel. */
  function CheckDone(s: State, c: ChannelId, allowed: bool, loginExpiry: int): State {
    if c !in s.channels || !s.channels[c].task.Checking? then s
    else
      var check := s.channels[c].task.check;
      var g := CheckedSession(s.channels[c], check);
      if g.None? then s
      else
        var (s', ok) := Recheck(s, g.value, allowed, loginExpiry);
        SetTask(s', c, if ok then Passed(check) else Idle)
  }

  /** What the gateway goes on with after a passed check. */
  function AfterCheck(s: State, ch: Channel, check: Check): Task {
    match check
    case TicketCheck(g, phase, h) =>
      if Current(s, g) then Claimed(Claim(g, phase, s.sessions[g].relay, h)) else Idle
    case OpenCheck => if ch.stopped || s.destroyed then Idle else Connecting
    case RelayCheck =>
      if ch.claim.Some? && ch.claim.value.session in s.sessions
         && (s.sessions[ch.claim.value.session].active || s.sessions[ch.claim.value.session].relay.None?)
      then Idle else AuditingRelay
  }

  function Proceed(s: State, c: ChannelId): State {
    if c !in s.channels || !s.channels[c].task.Passed? then s
    else SetTask(s, c, AfterCheck(s, s.channels[c], s.channels[c].task.check))
  }

  function Authorize(s: State, c: ChannelId): State {
    if c !in s.channels || !s.channels[c].task.Claimed? then s
    else
      var claim := s.channels[c].task.claim;
      var ch := s.channels[c].(claim := Some(claim), task := Idle);
      var s1 := SetChannel(s, c, ch);
      if ch.stopped || s.destroyed then CloseGrant(s1, claim.session)
      else if !Current(s1, claim.session) || |s1.sessions[claim.session].sockets| >= MAX_SOCKETS then Stop(s1, c, false)
      else
        var x := s1.sessions[claim.session];
        SetChannel(s1.(sessions := s1.sessions[claim.session := x.(sockets := x.sockets + {c})]), c, ch.(stage := AwaitingRequest))
  }

  /** A handshake the decoder accepted: on a relay channel it carries the claim's relay. */
  function ReceiveRequest(s: State, c: ChannelId, request: Frame): State {
    if c !in s.channels || s.channels[c].stopped || s.channels[c].stage != AwaitingRequest || s.channels[c].claim.None? then s
    else if !request.Request? || (s.channels[c].claim.value.phase == Relay && request.relay != s.channels[c].claim.value.relay)
    then Stop(s, c, false)
    else SetChannel(s, c, s.channels[c].(stage := Opening, task := Checking(OpenCheck), request := request))
  }

  /** The upstream connection is open.  `sent` is false when its buffer refuses the frame. */
  function Connected(s: State, c: ChannelId, sent: bool): State {
    if !Running(s, c, Connecting) || s.channels[c].claim.None? then s
    else
      var ch := s.channels[c];
      if ch.stopped || s.destroyed then SetChannel(s, c, ch.(task := Idle))
      else if ch.claim.value.phase == Relay then
        SetTask(s, c, if Current(s, ch.claim.value.session) then Checking(RelayCheck) else Idle)
      else Forward(SetChannel(s, c, ch.(task := Idle, stage := AwaitingReply)), c, ch.request, sent)
  }

  function Forward(s: State, c: ChannelId, frame: Frame, sent: bool): State
    requires c in s.channels
  {
    if sent then SetChannel(s, c, s.channels[c].(up := s.channels[c].up + [frame])) else Stop(s, c, false)
  }

  function ForwardDown(s: State, c: ChannelId, sent: bool): State
    requires c in s.channels
  {
    if sent then SetChannel(s, c, s.channels[c].(down := s.channels[c].down + 1)) else Stop(s, c, false)
  }

  function RelayAudited(s: State, c: ChannelId, stored: bool): State {
    if !Running(s, c, AuditingRelay) || s.channels[c].claim.None? then s
    else
      var g := s.channels[c].claim.value.session;
      if !stored then CloseGrant(SetChannel(s, c, s.channels[c].(task := Idle)), g)
      else if !Current(s, g) then SetChannel(s, c, s.channels[c].(task := Idle))
      else
        var s1 := SetChannel(s, c, s.channels[c].(task := RelayMarked));
        s1.(sessions := s1.sessions[g := s1.sessions[g].(active := true)], audited := s1.audited + {g})
  }

  function RelayOpened(s: State, c: ChannelId, sent: bool): State {
    if !Running(s, c, RelayMarked) || s.channels[c].claim.None? then s
    else
      var ch := s.channels[c];
      if ch.stopped || s.destroyed then SetChannel(s, c, ch.(task := Idle))
      else Forward(SetChannel(s, c, ch.(task := Idle, stage := Opaque)), c, ch.request, sent)
  }

  predicate MayBind(s: State, g: Guid, uuid: Uuid) {
    && Current(s, g) && s.sessions[g].relay.None?
    && forall h :: h in s.sessions && h != g ==> s.sessions[h].relay != Some(uuid)
  }

  /** A frame from upstream.  On a rendezvous channel it is the reply: a relay, or a refusal. */
  function ReceiveUpstream(s: State, c: ChannelId, relay: Option<Uuid>, wellFormed: bool, sent: bool): State {
    if c !in s.channels || s.channels[c].stopped then s
    else
      var ch := s.channels[c];
      if ch.stage == AwaitingReply && !ch.replied && ch.claim.Some? then
        var g := ch.claim.value.session;
        if !wellFormed || (relay.Some? && !MayBind(s, g, relay.value)) then Stop(s, c, false)
        else
          var s1 := SetChannel(s, c, ch.(replied := true));
          var s2 := if relay.Some? then BindRelay(s1, g, relay.value, c) else s1;
          ForwardDown(s2, c, sent)
      else if ch.stage == Opaque && wellFormed then ForwardDown(s, c, sent)
      else Stop(s, c, false)
  }

  function BindRelay(s: State, g: Guid, uuid: Uuid, c: ChannelId): State
    requires g in s.sessions
  {
    s.(sessions := s.sessions[g := s.sessions[g].(relay := Some(uuid))],
       bound := s.bound[g := uuid], boundBy := s.boundBy[g := c])
  }

  /** Any other frame from the browser. */
  function ReceivePayload(s: State, c: ChannelId, sent: bool): State {
    if c !in s.channels || s.channels[c].stopped then s
    else if s.channels[c].stage == Opaque then Forward(s, c, Payload, sent)
    else Stop(s, c, false)
  }

  // ---- time, faults and shutdown ----

  /** A check exceeded its deadline: every session ends, and none may start until it settles. */
  function TimeOut(s: State, id: nat): State {
    Invalidate(s, s.sessions.Keys).(overdue := s.overdue + {id}, epoch := s.epoch + 1)
  }

  function Settle(s: State, id: nat): State {
    s.(overdue := s.overdue - {id})
  }

  function ShutDown(s: State): State {
    Invalidate(s, s.sessions.Keys).(stopped := true)
  }

  /** The gateway goes down: all channels stop, their grants are left to the session service. */
  function Destroy(s: State): State {
    s.(destroyed := true,
       channels := map c | c in s.channels :: s.channels[c].(stopped := true),
       sessions := map g | g in s.sessions :: s.sessions[g].(sockets := {}))
  }

  function PurgeTickets(s: State): State {
    s.(tickets := map h | h in s.tickets && s.now < s.tickets[h].expiresAt :: s.tickets[h])
  }

  datatype Step =
    | BeginCreateStep(g: Guid, actor: Actor, target: nat, kind: Kind, parent: Option<Guid>)
    | ParentCheckedStep(g: Guid, allowed: bool, expiry: int)
    | CreateValidatedStep(g: Guid, allowed: bool, expiry: int)
    | CreateAuditedStep(g: Guid, stored: bool, rendezvous: Hash, relay: Hash)
    | CreateDeniedStep(g: Guid)
    | ConnectStep(c: ChannelId)
    | TicketStep(c: ChannelId, h: Hash)
    | AuthorizeStep(c: ChannelId)
    | RequestStep(c: ChannelId, request: Frame)
    | CheckStep(c: ChannelId, allowed: bool, expiry: int)
    | ProceedStep(c: ChannelId)
    | ConnectedStep(c: ChannelId, sent: bool)
    | RelayAuditedStep(c: ChannelId, stored: bool)
    | RelayOpenedStep(c: ChannelId, sent: bool)
    | UpstreamStep(c: ChannelId, bind: Option<Uuid>, wellFormed: bool, sent: bool)
    | PayloadStep(c: ChannelId, sent: bool)
    | StopStep(c: ChannelId, retain: bool)
    | RecheckStep(g: Guid, allowed: bool, expiry: int)
    | CloseGrantStep(g: Guid)
    | TimeOutStep(id: nat)
    | SettleStep(id: nat)
    | PurgeStep
    | TickStep(ms: nat)
    | ReconfigureStep(profile: nat)
    | ShutDownStep
    | DestroyStep

  function Next(s: State, step: Step): State {
    match step
    case BeginCreateStep(g, actor, target, kind, parent) => BeginCreate(s, g, actor, target, kind, parent)
    case ParentCheckedStep(g, allowed, expiry) => ParentChecked(s, g, allowed, expiry)
    case CreateValidatedStep(g, allowed, expiry) => CreateValidated(s, g, allowed, expiry)
    case CreateAuditedStep(g, stored, rendezvous, relay) => CreateAudited(s, g, stored, rendezvous, relay)
    case CreateDeniedStep(g) => CreateDenied(s, g)
    case ConnectStep(c) => Connect(s, c)
    case TicketStep(c, h) => ReceiveTicket(s, c, h)
    case AuthorizeStep(c) => Authorize(s, c)
    case RequestStep(c, request) => ReceiveRequest(s, c, request)
    case CheckStep(c, allowed, expiry) => CheckDone(s, c, allowed, expiry)
    case ProceedStep(c) => Proceed(s, c)
    case ConnectedStep(c, sent) => Connected(s, c, sent)
    case RelayAuditedStep(c, stored) => RelayAudited(s, c, stored)
    case RelayOpenedStep(c, sent) => RelayOpened(s, c, sent)
    case UpstreamStep(c, bind, wellFormed, sent) => ReceiveUpstream(s, c, bind, wellFormed, sent)
    case PayloadStep(c, sent) => ReceivePayload(s, c, sent)
    case StopStep(c, retain) => Stop(s, c, retain)
    case RecheckStep(g, allowed, expiry) => Recheck(s, g, allowed, expiry).0
    case CloseGrantStep(g) => CloseGrant(s, g)
    case TimeOutStep(id) => TimeOut(s, id)
    case SettleStep(id) => Settle(s, id)
    case PurgeStep => PurgeTickets(s)
    case TickStep(ms) => s.(now := s.now + ms)
    case ReconfigureStep(profile) => s.(profile := profile)
    case ShutDownStep => ShutDown(s)
    case DestroyStep => Destroy(s)
  }

  const START := State(
    0, 0, false, false, 0, {}, map[], map[], map[], map[], {}, {}, {}, {}, map[], map[], {})
}
