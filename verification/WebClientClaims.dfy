/** Where a channel's claim comes from: one ticket, redeemed in time, and one authorization, over every run. */
module WebClientClaims {
  import opened WebClientState
  import opened WebClientInvariant
  import opened WebClientSteps
  import opened WebClientChannels
  import opened WebClientLifecycle
  import opened WebClientHistory
  import opened WebClientRuns
  import opened WebClientTimes
  import opened Wrappers

  datatype Credential = Credential(session: Guid, phase: Phase, ticket: Hash)

  /** What a channel holds, or waits for, from the ticket it sent. */
  function CredentialOf(ch: Channel): Option<Credential> {
    if ch.claim.Some? then Some(Credential(ch.claim.value.session, ch.claim.value.phase, ch.claim.value.ticket))
    else
      match ch.task
      case Checking(TicketCheck(g, phase, h)) => Some(Credential(g, phase, h))
      case Passed(TicketCheck(g, phase, h)) => Some(Credential(g, phase, h))
      case Claimed(claim) => Some(Credential(claim.session, claim.phase, claim.ticket))
      case _ => None
  }

  datatype Point = ByTicket | BeforeOpening | BeforeRelay

  /** The channel is past its check: the one of its ticket, the one before the upstream connection is opened,
      or the one before the relay's opening is audited. */
  predicate IsPast(ch: Channel, point: Point) {
    match point
    case ByTicket => ch.claim.Some? || ch.task.Claimed? || (ch.task.Passed? && ch.task.check.TicketCheck?)
    case BeforeOpening =>
      || ch.stage in {AwaitingReply, Opaque} || ch.task in {Connecting, AuditingRelay, RelayMarked, Checking(RelayCheck)}
      || (ch.task.Passed? && !ch.task.check.TicketCheck?)
    case BeforeRelay => ch.stage == Opaque || ch.task in {AuditingRelay, RelayMarked, Passed(RelayCheck)}
  }

  predicate KeepsCredential(ch: Channel, ch': Channel) {
    CredentialOf(ch') == CredentialOf(ch) || CredentialOf(ch').None?
  }

  predicate KeepsChecks(ch: Channel, ch': Channel) {
    forall point: Point :: IsPast(ch', point) ==> IsPast(ch, point)
  }

  /** The channel has no credential, no check and no attachment that it did not have. */
  predicate Keeps(ch: Channel, ch': Channel) {
    KeepsCredential(ch, ch') && KeepsChecks(ch, ch') && (Attached(ch') ==> Attached(ch))
  }

  ghost predicate AllKeep(s: State, s': State) {
    forall c :: c in s'.channels ==>
      if c in s.channels then Keeps(s.channels[c], s'.channels[c]) else s'.channels[c] == FRESH_CHANNEL
  }

  lemma EndedKeep(s: State, s': State)
    requires Ended(s, s')
    ensures AllKeep(s, s')
  {
  }

  lemma SameChannelsKeep(s: State, s': State)
    requires s'.channels == s.channels
    ensures AllKeep(s, s')
  {
  }

  /** One channel changes, and then sessions may end. */
  lemma OneKeeps(s: State, c: ChannelId, ch: Channel, s': State)
    requires c in s.channels && Keeps(s.channels[c], ch) && Ended(SetChannel(s, c, ch), s')
    ensures AllKeep(s, s')
  {
  }

  lemma JustOneKeeps(s: State, c: ChannelId, ch: Channel)
    requires c in s.channels && Keeps(s.channels[c], ch)
    ensures AllKeep(s, SetChannel(s, c, ch))
  {
  }

  lemma StopKeeps(s: State, c: ChannelId, retain: bool)
    requires GuidsOk(s)
    ensures AllKeep(s, Stop(s, c, retain))
  {
    hide Stop, AllKeep, Ended, GuidsOk, Evolves;
    StopEvolves(s, c, retain);
    EndedKeep(s, Stop(s, c, retain));
  }

  lemma NothingChanges(s: State)
    ensures AllKeep(s, s)
  {
  }

  lemma FramesKeep(was: Channel, ch: Channel, frame: Frame)
    requires Keeps(was, ch)
    ensures Keeps(was, ch.(up := ch.up + [frame])) && Keeps(was, ch.(down := ch.down + 1))
  {
    assert forall point: Point :: IsPast(ch.(up := ch.up + [frame]), point) == IsPast(ch, point);
    assert forall point: Point :: IsPast(ch.(down := ch.down + 1), point) == IsPast(ch, point);
  }

  /** A channel changes, and then sends a frame or stops. */
  lemma ForwardKeeps(s: State, c: ChannelId, ch: Channel, frame: Frame, sent: bool)
    requires GuidsOk(s) && c in s.channels && Keeps(s.channels[c], ch)
    ensures AllKeep(s, Forward(SetChannel(s, c, ch), c, frame, sent)) && AllKeep(s, ForwardDown(SetChannel(s, c, ch), c, sent))
  {
    hide Stop, AllKeep, Ended, Evolves, Keeps, SetChannel;
    var s1 := SetChannel(s, c, ch);
    SetTwice(s, c, ch, ch.(up := ch.up + [frame]));
    SetTwice(s, c, ch, ch.(down := ch.down + 1));
    if sent {
      FramesKeep(s.channels[c], ch, frame);
      JustOneKeeps(s, c, ch.(up := ch.up + [frame]));
      JustOneKeeps(s, c, ch.(down := ch.down + 1));
    } else {
      StopEvolves(s1, c, false);
      OneKeeps(s, c, ch, Stop(s1, c, false));
    }
  }

  lemma SetTwice(s: State, c: ChannelId, ch: Channel, ch': Channel)
    ensures SetChannel(SetChannel(s, c, ch), c, ch') == SetChannel(s, c, ch')
    ensures
      var s' := SetChannel(s, c, ch);
      c in s'.channels && s'.channels[c] == ch && (GuidsOk(s) ==> GuidsOk(s'))
  {
    assert s.channels[c := ch][c := ch'] == s.channels[c := ch'];
  }

  lemma EndedLeaves(s: State, s': State, c: ChannelId)
    requires Ended(s, s') && c in s.channels
    ensures c in s'.channels && (s'.channels[c] == s.channels[c] || s'.channels[c] == s.channels[c].(stopped := true))
  {
  }

  lemma ProceedKeeps(s: State, c: ChannelId)
    requires Inv(s)
    ensures AllKeep(s, Proceed(s, c))
  {
    hide Inv, AllKeep, LooksOk, Current;
    NothingChanges(s);
    if c in s.channels && s.channels[c].task.Passed? {
      JustOneKeeps(s, c, s.channels[c].(task := AfterCheck(s, s.channels[c], s.channels[c].task.check)));
    }
  }

  lemma RequestKeeps(s: State, c: ChannelId, request: Frame)
    requires Inv(s)
    ensures AllKeep(s, ReceiveRequest(s, c, request))
  {
    hide Inv, AllKeep, GuidsOk, Stop;
    NothingChanges(s);
    InvHasGuids(s);
    StopKeeps(s, c, false);
    if c in s.channels && s.channels[c].stage == AwaitingRequest && s.channels[c].claim.Some? {
      JustOneKeeps(s, c, s.channels[c].(stage := Opening, task := Checking(OpenCheck), request := request));
    }
  }

  lemma ConnectedKeeps(s: State, c: ChannelId, sent: bool)
    requires Inv(s)
    ensures AllKeep(s, Connected(s, c, sent))
  {
    hide Inv, AllKeep, GuidsOk, Forward, LooksOk, Current;
    NothingChanges(s);
    if Running(s, c, Connecting) && s.channels[c].claim.Some? {
      InvHasGuids(s);
      LooksOkAt(s, c);
      var ch := s.channels[c];
      RunningIsOpening(PastOf(s), ch);
      JustOneKeeps(s, c, ch.(task := Idle));
      JustOneKeeps(s, c, ch.(task := Checking(RelayCheck)));
      ForwardKeeps(s, c, ch.(task := Idle, stage := AwaitingReply), ch.request, sent);
    }
  }

  lemma AuditedKeeps(s: State, c: ChannelId, stored: bool)
    requires Inv(s)
    ensures AllKeep(s, RelayAudited(s, c, stored))
  {
    hide Inv, AllKeep, GuidsOk, Ended, Evolves, CloseGrant, Current, Keeps;
    NothingChanges(s);
    if Running(s, c, AuditingRelay) && s.channels[c].claim.Some? {
      InvHasGuids(s);
      var g := s.channels[c].claim.value.session;
      var ch := s.channels[c].(task := Idle);
      AuditKeeps(s.channels[c]);
      JustOneKeeps(s, c, ch);
      CloseGrantEvolves(SetChannel(s, c, ch), g);
      OneKeeps(s, c, ch, CloseGrant(SetChannel(s, c, ch), g));
      if stored && Current(s, g) {
        JustOneKeeps(s, c, s.channels[c].(task := RelayMarked));
        KeepsChannelsOnly(s, SetChannel(s, c, s.channels[c].(task := RelayMarked)), RelayAudited(s, c, stored));
      }
    }
  }

  lemma AuditKeeps(ch: Channel)
    requires ch.task == AuditingRelay
    ensures Keeps(ch, ch.(task := Idle)) && Keeps(ch, ch.(task := RelayMarked))
  {
  }

  lemma KeepsChannelsOnly(s: State, s1: State, s2: State)
    requires AllKeep(s, s1) && s2.channels == s1.channels
    ensures AllKeep(s, s2)
  {
  }

  lemma OpenedKeeps(s: State, c: ChannelId, sent: bool)
    requires Inv(s)
    ensures AllKeep(s, RelayOpened(s, c, sent))
  {
    hide Inv, AllKeep, GuidsOk, Forward, LooksOk;
    NothingChanges(s);
    if Running(s, c, RelayMarked) && s.channels[c].claim.Some? {
      InvHasGuids(s);
      LooksOkAt(s, c);
      var ch := s.channels[c];
      RunningIsOpening(PastOf(s), ch);
      JustOneKeeps(s, c, ch.(task := Idle));
      ForwardKeeps(s, c, ch.(task := Idle, stage := Opaque), ch.request, sent);
    }
  }

  lemma UpstreamKeeps(s: State, c: ChannelId, relay: Option<Uuid>, wellFormed: bool, sent: bool)
    requires Inv(s)
    ensures AllKeep(s, ReceiveUpstream(s, c, relay, wellFormed, sent))
  {
    hide Inv, AllKeep, GuidsOk, Stop, ForwardDown, MayBind, BindRelay, Evolves, Keeps;
    NothingChanges(s);
    InvHasGuids(s);
    StopKeeps(s, c, false);
    if c in s.channels {
      var ch := s.channels[c];
      ReplyKeeps(ch);
      ForwardKeeps(s, c, ch.(replied := true), Payload, sent);
      ForwardKeeps(s, c, ch, Payload, sent);
      assert SetChannel(s, c, ch) == s;
      if relay.Some? && ch.claim.Some? && MayBind(s, ch.claim.value.session, relay.value) {
        var g := ch.claim.value.session;
        UnboundIsUnbound(s, g, relay.value);
        BindEvolves(s, g, relay.value, c);
        BindingCommutes(s, g, relay.value, c, ch.(replied := true));
        var s1 := BindRelay(s, g, relay.value, c);
        ForwardKeeps(s1, c, ch.(replied := true), Payload, sent);
        KeepsFrom(s, s1, ForwardDown(SetChannel(s1, c, ch.(replied := true)), c, sent));
      }
    }
  }

  lemma ReplyKeeps(ch: Channel)
    ensures Keeps(ch, ch.(replied := true)) && Keeps(ch, ch)
  {
    assert forall point: Point :: IsPast(ch.(replied := true), point) == IsPast(ch, point);
  }

  lemma KeepsFrom(s: State, s1: State, s2: State)
    requires s1.channels == s.channels && AllKeep(s1, s2)
    ensures AllKeep(s, s2)
  {
  }

  lemma PayloadKeeps(s: State, c: ChannelId, sent: bool)
    requires Inv(s)
    ensures AllKeep(s, ReceivePayload(s, c, sent))
  {
    hide Inv, AllKeep, GuidsOk, Stop, Forward, Keeps;
    NothingChanges(s);
    InvHasGuids(s);
    StopKeeps(s, c, false);
    if c in s.channels {
      assert SetChannel(s, c, s.channels[c]) == s;
      ReplyKeeps(s.channels[c]);
      ForwardKeeps(s, c, s.channels[c], Payload, sent);
    }
  }

  lemma ServicesKeep(s: State, step: Step)
    requires Inv(s) && !OfChannel(step)
    ensures AllKeep(s, Next(s, step))
  {
    hide Inv, AllKeep, GuidsOk, Ended, Evolves, ParentChecked, BeginCreate, CreateValidated, CreateAudited, CreateDenied;
    hide Recheck, CloseGrant, TimeOut, ShutDown, Destroy;
    InvHasGuids(s);
    match step
    case ParentCheckedStep(g, allowed, expiry) => ParentCheckKeeps(s, g, allowed, expiry);
    case RecheckStep(g, allowed, expiry) =>
      RecheckEvolves(s, g, allowed, expiry);
      EndedKeep(s, Recheck(s, g, allowed, expiry).0);
    case CloseGrantStep(g) =>
      CloseGrantEvolves(s, g);
      EndedKeep(s, CloseGrant(s, g));
    case TimeOutStep(id) => StoppingKeeps(s, id);
    case ShutDownStep => StoppingKeeps(s, 0);
    case DestroyStep => StoppingKeeps(s, 0);
    case _ =>
      RequestsLeave(s, step);
      SameChannelsKeep(s, Next(s, step));
  }

  lemma RequestsLeave(s: State, step: Step)
    requires step.BeginCreateStep? || step.CreateValidatedStep? || step.CreateAuditedStep? || step.CreateDeniedStep?
      || step.SettleStep? || step.PurgeStep? || step.TickStep? || step.ReconfigureStep?
    ensures Next(s, step).channels == s.channels
  {
    hide BeginCreate, CreateValidated, CreateAudited, CreateDenied, ParentChecked, Connect, ReceiveTicket;
    hide CheckDone, Proceed, Authorize, ReceiveRequest, Connected, RelayAudited, RelayOpened, ReceiveUpstream, ReceivePayload;
    hide Stop, Recheck, CloseGrant, TimeOut, ShutDown, Destroy;
    match step
    case BeginCreateStep(g, actor, target, kind, parent) => AskingLeaves(s, g, actor, target, kind, parent);
    case CreateValidatedStep(g, allowed, expiry) => IssuingLeaves(s, g, allowed, expiry, 0, 0);
    case CreateAuditedStep(g, stored, rendezvous, relay) => IssuingLeaves(s, g, stored, 0, rendezvous, relay);
    case CreateDeniedStep(g) => IssuingLeaves(s, g, false, 0, 0, 0);
    case _ =>
  }

  lemma AskingLeaves(s: State, g: Guid, actor: Actor, target: nat, kind: Kind, parent: Option<Guid>)
    ensures BeginCreate(s, g, actor, target, kind, parent).channels == s.channels
  {
    hide MayReserve, ParentAvailable;
  }

  lemma IssuingLeaves(s: State, g: Guid, ok: bool, expiry: int, rendezvous: Hash, relay: Hash)
    ensures CreateValidated(s, g, ok, expiry).channels == s.channels
    ensures CreateAudited(s, g, ok, rendezvous, relay).channels == s.channels
    ensures CreateDenied(s, g).channels == s.channels
  {
  }

  lemma ParentCheckKeeps(s: State, g: Guid, allowed: bool, expiry: int)
    requires GuidsOk(s)
    ensures AllKeep(s, ParentChecked(s, g, allowed, expiry))
  {
    hide AllKeep, GuidsOk, Ended, Evolves, Recheck;
    NothingChanges(s);
    if g in s.creates && s.creates[g].step == CheckingParent && s.creates[g].parent.Some? {
      RecheckEvolves(s, s.creates[g].parent.value, allowed, expiry);
      EndedKeep(s, Recheck(s, s.creates[g].parent.value, allowed, expiry).0);
      KeepsChannelsOnly(s, Recheck(s, s.creates[g].parent.value, allowed, expiry).0, ParentChecked(s, g, allowed, expiry));
    }
  }

  lemma StoppingKeeps(s: State, id: nat)
    ensures AllKeep(s, TimeOut(s, id)) && AllKeep(s, ShutDown(s)) && AllKeep(s, Destroy(s))
  {
  }

  // ---- what each step adds ----

  lemma TicketKeeps(s: State, c: ChannelId, h: Hash)
    requires Inv(s)
    ensures
      var s' := ReceiveTicket(s, c, h);
      && s'.channels.Keys == s.channels.Keys
      && (forall d :: d in s.channels && d != c ==> s'.channels[d] == s.channels[d])
      && (c in s.channels && s'.channels[c] != s.channels[c] ==>
            var ch' := s'.channels[c];
            && !Attached(ch') && (forall point: Point :: !IsPast(ch', point))
            && (CredentialOf(ch').Some? ==> Redeems(s, TicketStep(c, h), c, CredentialOf(ch').value)))
  {
    hide Inv, LooksOk, TicketTask, Spend, Redeems;
    SpendEvolves(s, h);
    TicketLeads(s, c, h);
    if c in s.channels {
      LooksOkAt(s, c);
      if s.channels[c].stage == AwaitingTicket {
        WaitingIsUnclaimed(PastOf(s), s.channels[c]);
      }
    }
  }

  /** A ticket leads to a check only when it is redeemed in time. */
  lemma TicketLeads(s: State, c: ChannelId, h: Hash)
    ensures
      var task := TicketTask(s, h);
      task == Idle
      || (task.Checking? && task.check.TicketCheck?
          && Redeems(s, TicketStep(c, h), c, Credential(task.check.session, task.check.phase, task.check.ticket)))
  {
  }

  lemma WaitingIsUnclaimed(p: Past, ch: Channel)
    requires LooksOk(p, ch) && ch.stage == AwaitingTicket
    ensures ch.claim.None?
  {
  }

  /** In the step after `s` channel `c` sends its ticket in time, for a session that may be used; a relay
      ticket is good only once the session has its relay. */
  ghost predicate Redeems(s: State, step: Step, c: ChannelId, k: Credential) {
    && step == TicketStep(c, k.ticket) && k.ticket in s.tickets
    && s.tickets[k.ticket].session == k.session && s.tickets[k.ticket].phase == k.phase && s.now < s.tickets[k.ticket].expiresAt
    && k.session in s.sessions && MayBeUsed(s, k.session)
    && (k.phase == Relay ==> s.sessions[k.session].relay.Some?)
  }

  /** Live, not expired, and open or at most two minutes old. */
  predicate MayBeUsed(s: State, g: Guid)
    requires g in s.sessions
  {
    && !s.stopped && s.now < s.sessions[g].expiresAt
    && (s.sessions[g].active || s.now < s.sessions[g].createdAt + 120_000)
  }

  /** In the step after `s` an authorization allows the session that channel `c` waits for at `point`, for
      longer than now, and the session may be used under today's configuration and its parent's. */
  ghost predicate Passes(s: State, step: Step, c: ChannelId, point: Point) {
    && step.CheckStep? && step.c == c && step.allowed && s.now < step.expiry
    && c in s.channels && s.channels[c].task.Checking? && PointOf(s.channels[c].task.check) == point
    && var g := CheckedSession(s.channels[c], s.channels[c].task.check);
       && g.Some? && g.value in s.sessions && MayBeUsed(s, g.value) && s.sessions[g.value].profile == s.profile
       && (s.sessions[g.value].parent.Some? ==>
             var p := s.sessions[g.value].parent.value; p in s.sessions && MayBeUsed(s, p) && s.sessions[p].active)
  }

  function PointOf(check: Check): Point {
    match check
    case TicketCheck(_, _, _) => ByTicket
    case OpenCheck => BeforeOpening
    case RelayCheck => BeforeRelay
  }

  lemma CheckAdds(s: State, c: ChannelId, allowed: bool, expiry: int)
    requires Inv(s) && c in s.channels && s.channels[c].task.Checking?
    requires CheckedSession(s.channels[c], s.channels[c].task.check).Some?
    ensures
      var s', ch := CheckDone(s, c, allowed, expiry), s.channels[c];
      var g := CheckedSession(ch, ch.task.check).value;
      && c in s'.channels
      && (if Recheck(s, g, allowed, expiry).1 then Passes(s, CheckStep(c, allowed, expiry), c, PointOf(ch.task.check))
          else s'.channels[c].task == Idle)
      && s'.channels[c] == (if s'.channels[c].stopped then ch.(stopped := true) else ch)
           .(task := if Recheck(s, g, allowed, expiry).1 then Passed(ch.task.check) else Idle)
      && (!ch.stopped || s'.channels[c].stopped)
  {
    hide Inv, Recheck, LooksOk, Ended, Evolves;
    var g := CheckedSession(s.channels[c], s.channels[c].task.check).value;
    RecheckKeepsInv(s, g, allowed, expiry);
    EndedLeaves(s, Recheck(s, g, allowed, expiry).0, c);
    ChecksPassExactly(s, g, allowed, expiry);
    FamiliesAreOpen(s, g);
  }

  /** A parent that may be used is live. */
  lemma FamiliesAreOpen(s: State, g: Guid)
    requires Inv(s)
    ensures g in s.sessions && s.sessions[g].parent.Some? ==> s.sessions[g].parent.value in s.sessions
  {
    if g in s.sessions {
      assert ParentOk(s, s.sessions[g]);
    }
  }

  /** An answer moves no channel's credential or attachment, and takes only its own channel past its check. */
  lemma CheckMoves(s: State, c: ChannelId, allowed: bool, expiry: int, d: ChannelId)
    requires Inv(s) && d in CheckDone(s, c, allowed, expiry).channels
    ensures Adds(s, CheckStep(c, allowed, expiry), d, CheckDone(s, c, allowed, expiry).channels[d])
  {
    hide Inv, Recheck, LooksOk, Ended, Evolves, Passes, Redeems, Attaching;
    if c in s.channels && s.channels[c].task.Checking? && CheckedSession(s.channels[c], s.channels[c].task.check).Some? {
      if d == c {
        CheckAdds(s, c, allowed, expiry);
        LooksOkAt(s, c);
        CheckedIsUnattached(PastOf(s), s.channels[c], CheckDone(s, c, allowed, expiry).channels[c]);
      } else {
        var g := CheckedSession(s.channels[c], s.channels[c].task.check).value;
        RecheckKeepsInv(s, g, allowed, expiry);
        OthersEnd(s, Recheck(s, g, allowed, expiry).0, d);
      }
    } else {
      SameAdds(s, CheckStep(c, allowed, expiry), d);
    }
  }

  lemma CheckedIsUnattached(p: Past, ch: Channel, ch': Channel)
    requires LooksOk(p, ch) && ch.task.Checking?
    requires ch'.task == Passed(ch.task.check) || ch'.task == Idle
    requires ch' == ch.(stopped := ch'.stopped, task := ch'.task) && (ch.stopped ==> ch'.stopped)
    ensures KeepsCredential(ch, ch') && (Attached(ch') ==> Attached(ch))
    ensures forall point: Point :: IsPast(ch', point) ==> IsPast(ch, point) || (ch'.task.Passed? && point == PointOf(ch.task.check))
  {
  }

  lemma OthersEnd(s: State, s': State, d: ChannelId)
    requires Ended(s, s') && d in s'.channels
    ensures d in s.channels && Keeps(s.channels[d], s'.channels[d])
  {
  }

  /** Channel `c` joins its session: the session may be used, and has at most one other channel. */
  ghost predicate Attaching(s: State, step: Step, c: ChannelId, ch': Channel) {
    && step == AuthorizeStep(c) && ch'.claim.Some? && ch'.claim.value.session in s.sessions
    && MayBeUsed(s, ch'.claim.value.session) && |s.sessions[ch'.claim.value.session].sockets| < 2
  }

  /** What channel `c` has after a step it had before, or the step gave it. */
  ghost predicate Adds(s: State, step: Step, c: ChannelId, ch': Channel) {
    if c in s.channels then
      var ch := s.channels[c];
      && (KeepsCredential(ch, ch') || Redeems(s, step, c, CredentialOf(ch').value))
      && (forall point: Point :: IsPast(ch', point) ==> IsPast(ch, point) || Passes(s, step, c, point))
      && (Attached(ch') ==> Attached(ch) || Attaching(s, step, c, ch'))
    else ch' == FRESH_CHANNEL
  }

  lemma SameAdds(s: State, step: Step, d: ChannelId)
    requires d in s.channels
    ensures Adds(s, step, d, s.channels[d])
  {
  }

  lemma KeptAdds(s: State, s': State, step: Step, d: ChannelId)
    requires AllKeep(s, s') && d in s'.channels
    ensures Adds(s, step, d, s'.channels[d])
  {
    hide CredentialOf, IsPast, Attached, Redeems, Passes, Attaching;
  }

  lemma TicketMoves(s: State, c: ChannelId, h: Hash, d: ChannelId)
    requires Inv(s) && d in ReceiveTicket(s, c, h).channels
    ensures Adds(s, TicketStep(c, h), d, ReceiveTicket(s, c, h).channels[d])
  {
    hide Inv, ReceiveTicket, CredentialOf, IsPast, Attached, Redeems, Passes, Attaching;
    TicketKeeps(s, c, h);
  }

  lemma ClaimMoves(s: State, c: ChannelId, d: ChannelId)
    requires Inv(s) && d in Authorize(s, c).channels
    ensures Adds(s, AuthorizeStep(c), d, Authorize(s, c).channels[d])
  {
    hide Inv, LooksOk, Ended, Evolves, CloseGrant, Stop, GuidsOk, Redeems, Passes;
    if c in s.channels && s.channels[c].task.Claimed? {
      InvHasGuids(s);
      LooksOkAt(s, c);
      ClaimedHasNoClaim(PastOf(s), s.channels[c]);
      var claim := s.channels[c].task.claim;
      var ch := s.channels[c].(claim := Some(claim), task := Idle);
      var s1 := SetChannel(s, c, ch);
      assert Keeps(s.channels[c], ch);
      SetTwice(s, c, ch, ch);
      CloseGrantEvolves(s1, claim.session);
      StopEvolves(s1, c, false);
      if ch.stopped || s.destroyed {
        OneKeeps(s, c, ch, CloseGrant(s1, claim.session));
        KeptAdds(s, CloseGrant(s1, claim.session), AuthorizeStep(c), d);
      } else if !Current(s1, claim.session) || |s1.sessions[claim.session].sockets| >= MAX_SOCKETS {
        OneKeeps(s, c, ch, Stop(s1, c, false));
        KeptAdds(s, Stop(s1, c, false), AuthorizeStep(c), d);
      } else if d == c {
        ClaimAttaches(s, c);
      } else {
        SameAdds(s, AuthorizeStep(c), d);
      }
    } else {
      SameAdds(s, AuthorizeStep(c), d);
    }
  }

  lemma ClaimAttaches(s: State, c: ChannelId)
    requires c in s.channels && s.channels[c].task.Claimed? && s.channels[c].claim.None?
    requires !s.channels[c].stopped && !s.destroyed && Current(s, s.channels[c].task.claim.session)
    requires |s.sessions[s.channels[c].task.claim.session].sockets| < MAX_SOCKETS && s.channels[c].stage == Authorizing
    ensures c in Authorize(s, c).channels && Adds(s, AuthorizeStep(c), c, Authorize(s, c).channels[c])
  {
    hide Stop, CloseGrant, Redeems, Passes;
  }

  lemma OtherStepsKeep(s: State, step: Step)
    requires Inv(s) && !step.TicketStep? && !step.CheckStep? && !step.AuthorizeStep?
    ensures AllKeep(s, Next(s, step))
  {
    hide Inv, AllKeep, Connect, Proceed, ReceiveRequest, Connected, RelayAudited, RelayOpened, ReceiveUpstream, ReceivePayload, Stop;
    hide BeginCreate, ParentChecked, CreateValidated, CreateAudited, CreateDenied, Recheck, CloseGrant, TimeOut, ShutDown, Destroy;
    if !OfChannel(step) {
      hide Next;
      ServicesKeep(s, step);
    } else {
      InvHasGuids(s);
      match step
      case ConnectStep(c) => ConnectKeeps(s, c);
      case ProceedStep(c) => ProceedKeeps(s, c);
      case RequestStep(c, request) => RequestKeeps(s, c, request);
      case ConnectedStep(c, sent) => ConnectedKeeps(s, c, sent);
      case RelayAuditedStep(c, stored) => AuditedKeeps(s, c, stored);
      case RelayOpenedStep(c, sent) => OpenedKeeps(s, c, sent);
      case UpstreamStep(c, bind, wellFormed, sent) => UpstreamKeeps(s, c, bind, wellFormed, sent);
      case PayloadStep(c, sent) => PayloadKeeps(s, c, sent);
      case StopStep(c, retain) => StopKeeps(s, c, retain);
    }
  }

  lemma ConnectKeeps(s: State, c: ChannelId)
    ensures AllKeep(s, Connect(s, c))
  {
  }

  /** Each step gives a channel only what `Adds` says. */
  lemma StepAdds(s: State, step: Step, c: ChannelId)
    requires Inv(s) && c in Next(s, step).channels
    ensures Adds(s, step, c, Next(s, step).channels[c])
  {
    hide Inv, Adds, AllKeep, Next, ReceiveTicket, CheckDone, Authorize;
    if step.TicketStep? || step.CheckStep? || step.AuthorizeStep? {
      ChannelSteps(s, step);
      if step.TicketStep? {
        TicketMoves(s, step.c, step.h, c);
      } else if step.CheckStep? {
        CheckMoves(s, step.c, step.allowed, step.expiry, c);
      } else {
        ClaimMoves(s, step.c, c);
      }
    } else {
      OtherStepsKeep(s, step);
      KeptAdds(s, Next(s, step), step, c);
    }
  }

  lemma ChannelSteps(s: State, step: Step)
    ensures step.TicketStep? ==> Next(s, step) == ReceiveTicket(s, step.c, step.h)
    ensures step.CheckStep? ==> Next(s, step) == CheckDone(s, step.c, step.allowed, step.expiry)
    ensures step.AuthorizeStep? ==> Next(s, step) == Authorize(s, step.c)
  {
  }

  // ---- over every run ----

  lemma NoChannelAtStart()
    ensures After([]).channels == map[]
  {
  }

  lemma FreshHasNothing(ch: Channel)
    requires ch == FRESH_CHANNEL
    ensures CredentialOf(ch).None? && !Attached(ch) && forall point: Point :: !IsPast(ch, point)
  {
  }

  /** What a channel holds comes from its own ticket, redeemed in some step `j` in time. */
  lemma {:induction false} CredentialsComeFromTickets(steps: seq<Step>, c: ChannelId) returns (j: nat)
    requires c in After(steps).channels && CredentialOf(After(steps).channels[c]).Some?
    ensures j < |steps| && Redeems(After(steps[..j]), steps[j], c, CredentialOf(After(steps).channels[c]).value)
  {
    hide Inv, Next, CredentialOf, IsPast, Attached, Redeems, Passes, Attaching;
    NoChannelAtStart();
    var before, step := steps[..|steps| - 1], steps[|steps| - 1];
    EveryRunKeepsInv(before);
    StepAdds(After(before), step, c);
    FreshHasNothing(FRESH_CHANNEL);
    if c in After(before).channels && CredentialOf(After(before).channels[c]) == CredentialOf(After(steps).channels[c]) {
      j := CredentialsComeFromTickets(before, c);
      assert before[..j] == steps[..j];
    } else {
      j := |steps| - 1;
    }
  }

  /** A claim stands for a ticket of that session and phase, sent by this very channel before the ticket ended,
      while the session might be used. */
  lemma ClaimsComeFromTickets(steps: seq<Step>, c: ChannelId) returns (j: nat)
    requires c in After(steps).channels && After(steps).channels[c].claim.Some?
    ensures j < |steps|
    ensures
      var claim := After(steps).channels[c].claim.value;
      Redeems(After(steps[..j]), steps[j], c, Credential(claim.session, claim.phase, claim.ticket))
  {
    hide After, Redeems;
    j := CredentialsComeFromTickets(steps, c);
  }

  /** No channel is past a check that did not pass: not to its claim, not to the upstream connection, and not
      to the audit of its relay's opening. */
  lemma {:induction false} ChecksComeFirst(steps: seq<Step>, c: ChannelId, point: Point) returns (j: nat)
    requires c in After(steps).channels && IsPast(After(steps).channels[c], point)
    ensures j < |steps| && Passes(After(steps[..j]), steps[j], c, point)
  {
    hide Inv, Next, CredentialOf, IsPast, Attached, Redeems, Passes, Attaching;
    NoChannelAtStart();
    var before, step := steps[..|steps| - 1], steps[|steps| - 1];
    EveryRunKeepsInv(before);
    StepAdds(After(before), step, c);
    FreshHasNothing(FRESH_CHANNEL);
    if c in After(before).channels && IsPast(After(before).channels[c], point) {
      j := ChecksComeFirst(before, c, point);
      assert before[..j] == steps[..j];
    } else {
      j := |steps| - 1;
    }
  }

  /** No frame passes a channel before the checks of its ticket and of its opening passed, nor a relay channel
      before the one of its relay. */
  lemma TrafficIsChecked(steps: seq<Step>, c: ChannelId) returns (ticket: nat, opening: nat, relay: nat)
    requires c in After(steps).channels && (Up(After(steps), c) != [] || Down(After(steps), c) != 0)
    ensures ticket < |steps| && Passes(After(steps[..ticket]), steps[ticket], c, ByTicket)
    ensures opening < |steps| && Passes(After(steps[..opening]), steps[opening], c, BeforeOpening)
    ensures After(steps).channels[c].claim.Some?
    ensures After(steps).channels[c].claim.value.phase == Relay ==>
      relay < |steps| && Passes(After(steps[..relay]), steps[relay], c, BeforeRelay)
  {
    hide After, Passes, Inv;
    EveryRunKeepsInv(steps);
    LooksOkAt(After(steps), c);
    BusyIsPast(PastOf(After(steps)), After(steps).channels[c]);
    hide LooksOk, IsPast;
    ticket := ChecksComeFirst(steps, c, ByTicket);
    opening := ChecksComeFirst(steps, c, BeforeOpening);
    relay := 0;
    if After(steps).channels[c].claim.value.phase == Relay {
      relay := ChecksComeFirst(steps, c, BeforeRelay);
    }
  }

  lemma BusyIsPast(p: Past, ch: Channel)
    requires LooksOk(p, ch) && (ch.up != [] || ch.down != 0)
    ensures ch.claim.Some? && IsPast(ch, ByTicket) && IsPast(ch, BeforeOpening)
    ensures ch.claim.value.phase == Relay ==> IsPast(ch, BeforeRelay)
  {
  }

  /** A channel joined its session while the session might be used and had room. */
  lemma {:induction false} AttachmentsAreAuthorized(steps: seq<Step>, c: ChannelId) returns (j: nat)
    requires c in After(steps).channels && Attached(After(steps).channels[c])
    ensures j < |steps| && Attaching(After(steps[..j]), steps[j], c, After(steps).channels[c])
  {
    hide Inv, Next, CredentialOf, IsPast, Attached, Redeems, Passes, Attaching;
    NoChannelAtStart();
    var before, step := steps[..|steps| - 1], steps[|steps| - 1];
    EveryRunKeepsInv(before);
    StepAdds(After(before), step, c);
    FreshHasNothing(FRESH_CHANNEL);
    if c in After(before).channels && Attached(After(before).channels[c]) {
      j := AttachmentsAreAuthorized(before, c);
      NextEvolves(After(before), step);
      ClaimsStay(After(before), After(steps), c, After(steps[..j]), steps[j]);
      assert before[..j] == steps[..j];
    } else {
      j := |steps| - 1;
    }
  }

  lemma ClaimsStay(s: State, s': State, c: ChannelId, t: State, step: Step)
    requires ChannelsMove(s, s') && c in s.channels && c in s'.channels
    ensures Attaching(t, step, c, s.channels[c]) ==> Attaching(t, step, c, s'.channels[c])
  {
  }
}
