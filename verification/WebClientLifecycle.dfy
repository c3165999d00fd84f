/** Time, faults and shutdown keep the invariant, and so does every step. */
module WebClientLifecycle {
  import opened WebClientState
  import opened WebClientInvariant
  import opened WebClientSteps
  import opened WebClientCreation
  import opened WebClientChannels

  lemma NoSessionsNoTickets(s: State)
    requires TicketsOk(s) && s.sessions == map[]
    ensures s.tickets == map[]
  {
  }

  /** Once no session is left, neither is a ticket, and the services may be held off. */
  lemma QuietKeepsInv(s: State, s': State)
    requires Inv(s) && s.sessions == map[]
    requires s' == s.(overdue := s'.overdue, epoch := s'.epoch, stopped := s'.stopped) && s.epoch <= s'.epoch
    ensures Inv(s')
  {
    hide QuotaOk, ChannelsInv, ParentsOk;
    NoSessionsNoTickets(s);
    ChannelsUntouched(s, s');
    FewerSessionsKeepQuota(s, s');
    ParentsUntouched(s, s');
  }

  lemma InvalidateAllKeepsInv(s: State)
    requires Inv(s)
    ensures var s' := Invalidate(s, s.sessions.Keys); Inv(s') && s'.sessions == map[] && s'.epoch == s.epoch
  {
    hide Inv;
    InvalidateKeepsInv(s, s.sessions.Keys);
  }

  lemma TimeOutKeepsInv(s: State, id: nat)
    requires Inv(s)
    ensures Inv(TimeOut(s, id))
  {
    hide Inv, Invalidate;
    InvalidateAllKeepsInv(s);
    QuietKeepsInv(Invalidate(s, s.sessions.Keys), TimeOut(s, id));
  }

  lemma ShutDownKeepsInv(s: State)
    requires Inv(s)
    ensures Inv(ShutDown(s))
  {
    hide Inv, Invalidate;
    InvalidateAllKeepsInv(s);
    QuietKeepsInv(Invalidate(s, s.sessions.Keys), ShutDown(s));
  }

  /** Settling a late check, dropping tickets, and the passing of time. */
  lemma EasingKeepsInv(s: State, s': State)
    requires Inv(s) && s'.tickets.Keys <= s.tickets.Keys && s'.overdue <= s.overdue
    requires forall h :: h in s'.tickets ==> s'.tickets[h] == s.tickets[h]
    requires s' == s.(now := s'.now, profile := s'.profile, overdue := s'.overdue, tickets := s'.tickets)
    ensures Inv(s')
  {
    hide QuotaOk, ChannelsInv, ParentsOk, GuidsOk, QuietOk, TicketsOk, RelaysOk;
    ChannelsUntouched(s, s');
    FewerSessionsKeepQuota(s, s');
    ParentsUntouched(s, s');
    EasingKeepsTheRest(s, s');
  }

  lemma EasingKeepsTheRest(s: State, s': State)
    requires GuidsOk(s) && QuietOk(s) && TicketsOk(s) && RelaysOk(s)
    requires s'.tickets.Keys <= s.tickets.Keys && s'.overdue <= s.overdue
    requires forall h :: h in s'.tickets ==> s'.tickets[h] == s.tickets[h]
    requires s' == s.(now := s'.now, profile := s'.profile, overdue := s'.overdue, tickets := s'.tickets)
    ensures GuidsOk(s') && QuietOk(s') && TicketsOk(s') && RelaysOk(s')
  {
  }

  predicate IsDestroyed(s: State, s': State) {
    && s'.sessions.Keys == s.sessions.Keys && s'.channels.Keys == s.channels.Keys
    && (forall g :: g in s.sessions ==> s'.sessions[g] == s.sessions[g].(sockets := {}))
    && (forall c :: c in s.channels ==> s'.channels[c] == s.channels[c].(stopped := true))
    && s' == s.(sessions := s'.sessions, channels := s'.channels, destroyed := true)
  }

  lemma DestroyKeepsSessions(s: State, s': State)
    requires SessionsInv(s) && IsDestroyed(s, s')
    ensures SessionsInv(s')
  {
    hide GuidsOk, QuietOk, QuotaOk, TicketsOk, ParentsOk;
    assert SameSessions(s, s');
    hide SameSessions, RelaysOk, IsDestroyed;
    SameSessionsKeepInv(s, s');
  }

  lemma DestroyKeepsChannels(s: State, s': State)
    requires ChannelsInv(s) && IsDestroyed(s, s')
    ensures ChannelsInv(s')
  {
    hide LooksOk;
    forall c | c in s'.channels ensures LooksOk(PastOf(s'), s'.channels[c]) {
      StoppedLooksOk(PastOf(s), s.channels[c]);
    }
    assert forall c :: c in s.channels ==> TicketOf(s'.channels[c]) == TicketOf(s.channels[c]);
  }

  lemma DestroyKeepsInv(s: State)
    requires Inv(s)
    ensures Inv(Destroy(s))
  {
    hide SessionsInv, ChannelsInv;
    assert IsDestroyed(s, Destroy(s));
    hide IsDestroyed, Destroy;
    DestroyKeepsSessions(s, Destroy(s));
    DestroyKeepsChannels(s, Destroy(s));
  }

  /** The steps of the gateway's channels. */
  predicate OfChannel(step: Step) {
    step.ConnectStep? || step.TicketStep? || step.CheckStep? || step.ProceedStep? || step.AuthorizeStep?
    || step.RequestStep? || step.ConnectedStep? || step.RelayAuditedStep? || step.RelayOpenedStep?
    || step.UpstreamStep? || step.PayloadStep? || step.StopStep?
  }

  lemma ChannelStepKeepsInv(s: State, step: Step)
    requires Inv(s) && OfChannel(step)
    ensures Inv(Next(s, step))
  {
    hide Inv, Connect, ReceiveTicket, CheckDone, Proceed, Authorize, ReceiveRequest, Connected, RelayAudited, RelayOpened;
    hide ReceiveUpstream, ReceivePayload, Stop;
    match step
    case ConnectStep(c) => ConnectKeepsInv(s, c);
    case TicketStep(c, h) => ReceiveTicketKeepsInv(s, c, h);
    case AuthorizeStep(c) => AuthorizeKeepsInv(s, c);
    case RequestStep(c, request) => ReceiveRequestKeepsInv(s, c, request);
    case CheckStep(c, allowed, expiry) => CheckDoneKeepsInv(s, c, allowed, expiry);
    case ProceedStep(c) => ProceedKeepsInv(s, c);
    case ConnectedStep(c, sent) => ConnectedKeepsInv(s, c, sent);
    case RelayAuditedStep(c, stored) => RelayAuditedKeepsInv(s, c, stored);
    case RelayOpenedStep(c, sent) => RelayOpenedKeepsInv(s, c, sent);
    case UpstreamStep(c, bind, wellFormed, sent) => ReceiveUpstreamKeepsInv(s, c, bind, wellFormed, sent);
    case PayloadStep(c, sent) => ReceivePayloadKeepsInv(s, c, sent);
    case StopStep(c, retain) => StopKeepsInv(s, c, retain);
  }

  lemma ServiceStepKeepsInv(s: State, step: Step)
    requires Inv(s) && !OfChannel(step)
    ensures Inv(Next(s, step))
  {
    hide Inv, BeginCreate, ParentChecked, CreateValidated, CreateAudited, CreateDenied;
    hide Recheck, CloseGrant, TimeOut, ShutDown, Destroy;
    match step
    case BeginCreateStep(g, actor, target, kind, parent) => BeginCreateKeepsInv(s, g, actor, target, kind, parent);
    case ParentCheckedStep(g, allowed, expiry) => ParentCheckedKeepsInv(s, g, allowed, expiry);
    case CreateValidatedStep(g, allowed, expiry) => CreateValidatedKeepsInv(s, g, allowed, expiry);
    case CreateAuditedStep(g, stored, rendezvous, relay) => CreateAuditedKeepsInv(s, g, stored, rendezvous, relay);
    case CreateDeniedStep(g) => CreateDeniedKeepsInv(s, g);
    case RecheckStep(g, allowed, expiry) => RecheckKeepsInv(s, g, allowed, expiry);
    case CloseGrantStep(g) => CloseGrantKeepsInv(s, g);
    case TimeOutStep(id) => TimeOutKeepsInv(s, id);
    case SettleStep(id) => EasingKeepsInv(s, Settle(s, id));
    case PurgeStep => EasingKeepsInv(s, PurgeTickets(s));
    case TickStep(ms) => EasingKeepsInv(s, s.(now := s.now + ms));
    case ReconfigureStep(profile) => EasingKeepsInv(s, s.(profile := profile));
    case ShutDownStep => ShutDownKeepsInv(s);
    case DestroyStep => DestroyKeepsInv(s);
  }

  /** Whatever the next step, and whoever takes it, the invariant holds again after it. */
  lemma NextKeepsInv(s: State, step: Step)
    requires Inv(s)
    ensures Inv(Next(s, step))
  {
    hide Inv, Next;
    if OfChannel(step) {
      ChannelStepKeepsInv(s, step);
    } else {
      ServiceStepKeepsInv(s, step);
    }
  }

  lemma StartIsOk()
    ensures Inv(START)
  {
  }
}
