/** Every step of a gateway channel keeps the invariant. */
module WebClientChannels {
  import opened WebClientState
  import opened WebClientInvariant
  import opened WebClientSteps
  import opened Wrappers

  // ---- a channel alone ----

  /** Going on to a task that suits the channel, with the same ticket if any. */
  predicate MayTake(p: Past, ch: Channel, task: Task) {
    match task
    case Idle => true
    case Passed(check) => ch.task == Checking(check)
    case Checking(check) => check == RelayCheck && ch.task == Connecting && ch.claim.Some? && ch.claim.value.phase == Relay
    case Connecting => ch.task == Passed(OpenCheck)
    case AuditingRelay => ch.task == Passed(RelayCheck)
    case RelayMarked => ch.task == AuditingRelay && ch.claim.Some? && ch.claim.value.session in p.audited
    case Claimed(claim) =>
      && ch.task == Passed(TicketCheck(claim.session, claim.phase, claim.ticket))
      && (claim.session in p.bound ==> claim.relay == Some(p.bound[claim.session]))
  }

  lemma TaskLooksOk(p: Past, ch: Channel, task: Task)
    requires LooksOk(p, ch) && MayTake(p, ch, task)
    ensures var ch' := ch.(task := task); LooksOk(p, ch') && SameChannel(ch, ch') && SameTicket(ch, ch')
  {
  }

  lemma TicketLooksOk(p: Past, ch: Channel, task: Task)
    requires LooksOk(p, ch) && ch.stage == AwaitingTicket
    requires task != Idle ==> task.Checking? && task.check.TicketCheck? && task.check.ticket in p.redeemed
    requires task != Idle && task.check.phase == Relay ==> task.check.session in p.bound
    ensures var ch' := ch.(stage := Authorizing, task := task);
      LooksOk(p, ch') && SameChannel(ch, ch') && TicketOf(ch') == if task == Idle then None else Some(task.check.ticket)
  {
  }

  lemma ClaimLooksOk(p: Past, ch: Channel)
    requires LooksOk(p, ch) && ch.task.Claimed?
    ensures var ch' := ch.(claim := Some(ch.task.claim), task := Idle);
      LooksOk(p, ch') && SameChannel(ch, ch') && SameTicket(ch, ch') && ch.stage == Authorizing
  {
  }

  lemma OpeningLooksOk(p: Past, ch: Channel, request: Frame)
    requires LooksOk(p, ch) && ch.stage == AwaitingRequest && ch.claim.Some? && request.Request?
    requires ch.claim.value.phase == Relay ==> request.relay == ch.claim.value.relay
    ensures var ch' := ch.(stage := Opening, task := Checking(OpenCheck), request := request);
      LooksOk(p, ch') && SameChannel(ch, ch') && SameTicket(ch, ch')
  {
  }

  /** `ch'` has sent `frame` and is good; had the send failed, stopping it would do. */
  ghost predicate MaySend(p: Past, ch: Channel, ch': Channel, frame: Frame) {
    && SameChannel(ch, ch') && SameTicket(ch, ch') && !ch'.stopped
    && LooksOk(p, ch'.(stopped := true)) && LooksOk(p, ch'.(up := ch'.up + [frame]))
  }

  lemma SentIsSame(ch: Channel, ch': Channel, frame: Frame)
    requires SameChannel(ch, ch') && SameTicket(ch, ch')
    ensures var sent := ch'.(up := ch'.up + [frame]); SameChannel(ch, sent) && SameTicket(ch, sent)
  {
  }

  lemma RendezvousMaySend(p: Past, ch: Channel)
    requires LooksOk(p, ch) && ch.task == Connecting && ch.claim.Some? && ch.claim.value.phase == Rendezvous && !ch.stopped
    ensures MaySend(p, ch, ch.(task := Idle, stage := AwaitingReply), ch.request)
  {
  }

  lemma RelayMaySend(p: Past, ch: Channel)
    requires LooksOk(p, ch) && ch.task == RelayMarked && !ch.stopped
    ensures MaySend(p, ch, ch.(task := Idle, stage := Opaque), ch.request)
  {
  }

  lemma OpaqueMaySend(p: Past, ch: Channel, frame: Frame)
    requires LooksOk(p, ch) && ch.stage == Opaque && !ch.stopped
    ensures MaySend(p, ch, ch, frame)
  {
  }

  lemma RepliedLooksOk(p: Past, ch: Channel)
    requires LooksOk(p, ch) && ch.stage == AwaitingReply && !ch.replied
    ensures var ch' := ch.(replied := true);
      LooksOk(p, ch') && SameChannel(ch, ch') && SameTicket(ch, ch') && ch'.down == 0 && ch'.claim.value.phase == Rendezvous
  {
  }

  lemma DownLooksOk(p: Past, ch: Channel)
    requires LooksOk(p, ch)
    requires (ch.stage == AwaitingReply && ch.replied && ch.down == 0) || (ch.stage == Opaque && !ch.stopped)
    ensures var ch' := ch.(down := ch.down + 1); LooksOk(p, ch') && SameChannel(ch, ch') && SameTicket(ch, ch')
  {
  }

  lemma LooksOkAt(s: State, c: ChannelId)
    requires Inv(s) && c in s.channels
    ensures LooksOk(PastOf(s), s.channels[c])
  {
  }

  lemma TaskChangeKeepsInv(s: State, c: ChannelId, task: Task)
    requires Inv(s) && c in s.channels && MayTake(PastOf(s), s.channels[c], task)
    ensures Inv(SetTask(s, c, task))
  {
    hide Inv, LooksOk, MayTake, SameChannel, SameTicket;
    LooksOkAt(s, c);
    TaskLooksOk(PastOf(s), s.channels[c], task);
    ChannelChangeKeepsInv(s, c, s.channels[c].(task := task));
  }

  // ---- connecting and spending a ticket ----

  lemma ConnectKeepsAttached(s: State, c: ChannelId)
    requires AttachedOk(s) && SocketsOk(s) && BoundOk(s)
    ensures var s' := Connect(s, c); AttachedOk(s') && SocketsOk(s') && BoundOk(s')
  {
    var s' := Connect(s, c);
    forall d | d in s'.channels && Attached(s'.channels[d]) ensures Registered(s', d) {
      assert Registered(s, d);
    }
  }

  lemma ConnectKeepsLooks(s: State, c: ChannelId)
    requires AllLookOk(s) && TicketUseOk(s)
    ensures AllLookOk(Connect(s, c)) && TicketUseOk(Connect(s, c))
  {
  }

  lemma ConnectKeepsInv(s: State, c: ChannelId)
    requires Inv(s)
    ensures Inv(Connect(s, c))
  {
    hide SessionsInv, AllLookOk, AttachedOk, SocketsOk, TicketUseOk, BoundOk;
    SessionsUntouched(s, Connect(s, c));
    ConnectKeepsAttached(s, c);
    ConnectKeepsLooks(s, c);
  }

  lemma SpendingKeepsTickets(s: State, h: Hash)
    requires TicketsOk(s) && QuietOk(s)
    ensures TicketsOk(Spend(s, h)) && QuietOk(Spend(s, h))
  {
  }

  lemma SpendingKeepsInv(s: State, h: Hash)
    requires Inv(s)
    ensures Inv(Spend(s, h))
  {
    hide GuidsOk, QuietOk, QuotaOk, TicketsOk, ParentsOk, RelaysOk, ChannelsInv;
    var s' := Spend(s, h);
    ChannelsUntouched(s, s');
    SpendingKeepsTickets(s, h);
    SpendingKeepsTheRest(s, s');
  }

  lemma SpendingKeepsTheRest(s: State, s': State)
    requires GuidsOk(s) && QuotaOk(s) && ParentsOk(s) && RelaysOk(s)
    requires s' == s.(tickets := s'.tickets, redeemed := s'.redeemed)
    ensures GuidsOk(s') && QuotaOk(s') && ParentsOk(s') && RelaysOk(s')
  {
    hide QuotaOk, ParentsOk;
    FewerSessionsKeepQuota(s, s');
    ParentsUntouched(s, s');
  }

  lemma ParentsUntouched(s: State, s': State)
    requires ParentsOk(s) && s'.sessions == s.sessions && s'.creates == s.creates && s'.used == s.used
    ensures ParentsOk(s')
  {
  }

  lemma NewTicketKeepsTicketUse(s: State, c: ChannelId, ch': Channel)
    requires TicketUseOk(s) && c in s.channels
    requires TicketOf(ch').Some? ==> TicketOf(ch').value in s.redeemed
    requires TicketOf(ch').Some? ==> forall d :: d in s.channels ==> TicketOf(s.channels[d]) != TicketOf(ch')
    ensures TicketUseOk(SetChannel(s, c, ch'))
  {
  }

  lemma RelayIsBound(s: State, g: Guid)
    requires Inv(s) && g in s.sessions
    ensures s.sessions[g].relay == if g in s.bound then Some(s.bound[g]) else None
  {
  }

  /** What is known of where a ticket leads, in the state where it is spent. */
  lemma TicketTaskIsKnown(s: State, h: Hash)
    requires Inv(s)
    ensures var task := TicketTask(s, h); task != Idle ==>
      && task.Checking? && task.check.TicketCheck? && task.check.ticket == h
      && h in Spend(s, h).redeemed && (task.check.phase == Relay ==> task.check.session in Spend(s, h).bound)
      && forall d :: d in s.channels ==> TicketOf(s.channels[d]) != Some(h)
  {
  }

  /** A ticket no channel has used becomes this channel's. */
  lemma ReceiveTicketKeepsInv(s: State, c: ChannelId, h: Hash)
    requires Inv(s)
    ensures Inv(ReceiveTicket(s, c, h))
  {
    hide Inv, LooksOk, InvButFor, SameChannel, SameTicket, TicketUseOk, TicketTask, TicketOf, Spend;
    if c in s.channels && !s.channels[c].stopped && s.channels[c].stage == AwaitingTicket {
      var s1 := Spend(s, h);
      SpendingKeepsInv(s, h);
      SpendingLeavesChannels(s, h);
      TicketTaskIsKnown(s, h);
      var ch' := s.channels[c].(stage := Authorizing, task := TicketTask(s, h));
      LooksOkAt(s1, c);
      TicketLooksOk(PastOf(s1), s1.channels[c], TicketTask(s, h));
      TicketUseHolds(s1);
      NewTicketKeepsTicketUse(s1, c, ch');
      StoppedLooksOk(PastOf(s1), ch');
      ChannelChangeKeepsRest(s1, c, ch');
      InvButForNothing(SetChannel(s1, c, ch'), c);
    }
  }

  lemma SpendingLeavesChannels(s: State, h: Hash)
    ensures Spend(s, h).channels == s.channels
  {
  }

  // ---- checks ----

  lemma CheckDoneKeepsInv(s: State, c: ChannelId, allowed: bool, loginExpiry: int)
    requires Inv(s)
    ensures Inv(CheckDone(s, c, allowed, loginExpiry))
  {
    hide Inv, Recheck;
    if c in s.channels && s.channels[c].task.Checking? {
      var check := s.channels[c].task.check;
      var g := CheckedSession(s.channels[c], check);
      if g.Some? {
        RecheckKeepsInv(s, g.value, allowed, loginExpiry);
        var (s', ok) := Recheck(s, g.value, allowed, loginExpiry);
        TaskChangeKeepsInv(s', c, if ok then Passed(check) else Idle);
      }
    }
  }

  lemma ProceedKeepsInv(s: State, c: ChannelId)
    requires Inv(s)
    ensures Inv(Proceed(s, c))
  {
    hide Inv;
    if c in s.channels && s.channels[c].task.Passed? {
      var check := s.channels[c].task.check;
      if check.TicketCheck? && Current(s, check.session) {
        RelayIsBound(s, check.session);
      }
      TaskChangeKeepsInv(s, c, AfterCheck(s, s.channels[c], check));
    }
  }

  // ---- attaching ----

  predicate Attaches(s: State, c: ChannelId, g: Guid, s': State) {
    && c in s.channels && g in s.sessions && |s.sessions[g].sockets| < MAX_SOCKETS
    && !s.channels[c].stopped && s.channels[c].claim.Some? && s.channels[c].claim.value.session == g
    && s.channels[c].stage == Authorizing && s.channels[c].task == Idle
    && s'.sessions == s.sessions[g := s.sessions[g].(sockets := s.sessions[g].sockets + {c})]
    && s'.channels == s.channels[c := s.channels[c].(stage := AwaitingRequest)]
    && s' == s.(sessions := s'.sessions, channels := s'.channels)
  }

  lemma AttachKeepsSockets(s: State, c: ChannelId, g: Guid, s': State)
    requires SocketsOk(s) && BoundOk(s) && AttachedOk(s) && Attaches(s, c, g, s')
    ensures SocketsOk(s') && BoundOk(s') && AttachedOk(s')
  {
    forall d | d in s'.channels && Attached(s'.channels[d]) ensures Registered(s', d) {
      assert d != c ==> Registered(s, d);
    }
  }

  lemma AttachKeepsSessions(s: State, c: ChannelId, g: Guid, s': State)
    requires SessionsInv(s) && Attaches(s, c, g, s')
    ensures SessionsInv(s')
  {
    hide GuidsOk, QuietOk, QuotaOk, TicketsOk, ParentsOk;
    assert SameSessions(s, s');
    hide SameSessions, RelaysOk, Attaches;
    SameSessionsKeepInv(s, s');
  }

  lemma AttachKeepsLooks(s: State, c: ChannelId, g: Guid, s': State)
    requires AllLookOk(s) && TicketUseOk(s) && Attaches(s, c, g, s')
    ensures AllLookOk(s') && TicketUseOk(s')
  {
  }

  lemma AttachKeepsInv(s: State, c: ChannelId, g: Guid, s': State)
    requires Inv(s) && Attaches(s, c, g, s')
    ensures Inv(s')
  {
    hide SessionsInv, AllLookOk, AttachedOk, SocketsOk, TicketUseOk, BoundOk, Attaches;
    AttachKeepsSessions(s, c, g, s');
    AttachKeepsSockets(s, c, g, s');
    AttachKeepsLooks(s, c, g, s');
  }

  lemma AuthorizeKeepsInv(s: State, c: ChannelId)
    requires Inv(s)
    ensures Inv(Authorize(s, c))
  {
    hide Inv, LooksOk, SameChannel, SameTicket, CloseGrant, Stop;
    if c in s.channels && s.channels[c].task.Claimed? {
      var claim := s.channels[c].task.claim;
      var ch := s.channels[c].(claim := Some(claim), task := Idle);
      var s1 := SetChannel(s, c, ch);
      LooksOkAt(s, c);
      ClaimLooksOk(PastOf(s), s.channels[c]);
      ChannelChangeKeepsInv(s, c, ch);
      if ch.stopped || s.destroyed {
        CloseGrantKeepsInv(s1, claim.session);
      } else if !Current(s1, claim.session) || |s1.sessions[claim.session].sockets| >= MAX_SOCKETS {
        StopKeepsInv(s1, c, false);
      } else {
        AttachKeepsInv(s1, c, claim.session, Authorize(s, c));
      }
    }
  }

  // ---- frames from the browser ----

  lemma ReceiveRequestKeepsInv(s: State, c: ChannelId, request: Frame)
    requires Inv(s)
    ensures Inv(ReceiveRequest(s, c, request))
  {
    hide Inv, LooksOk, SameChannel, SameTicket, Stop;
    if c in s.channels && !s.channels[c].stopped && s.channels[c].stage == AwaitingRequest && s.channels[c].claim.Some? {
      var claim := s.channels[c].claim.value;
      if !request.Request? || (claim.phase == Relay && request.relay != claim.relay) {
        StopKeepsInv(s, c, false);
      } else {
        LooksOkAt(s, c);
        OpeningLooksOk(PastOf(s), s.channels[c], request);
        ChannelChangeKeepsInv(s, c, s.channels[c].(stage := Opening, task := Checking(OpenCheck), request := request));
      }
    }
  }

  /** A channel takes a step and sends a frame; when that fails it is stopped instead. */
  lemma ForwardKeepsInv(s: State, c: ChannelId, ch: Channel, frame: Frame, sent: bool)
    requires Inv(s) && c in s.channels && MaySend(PastOf(s), s.channels[c], ch, frame)
    ensures Inv(Forward(SetChannel(s, c, ch), c, frame, sent))
  {
    hide Inv, InvButFor, LooksOk, Stop, SameChannel, SameTicket, TicketUseOk;
    var s1 := SetChannel(s, c, ch);
    var ch' := ch.(up := ch.up + [frame]);
    SentIsSame(s.channels[c], ch, frame);
    if sent {
      assert SetChannel(s1, c, ch') == SetChannel(s, c, ch');
      ChannelChangeKeepsInv(s, c, ch');
    } else {
      TicketUseHolds(s);
      ChannelChangeKeepsTicketUse(s, c, ch);
      ChannelChangeKeepsRest(s, c, ch);
      StopRepairsInv(s1, c, false);
    }
  }

  lemma ConnectedKeepsInv(s: State, c: ChannelId, sent: bool)
    requires Inv(s)
    ensures Inv(Connected(s, c, sent))
  {
    hide Inv, LooksOk, MaySend, Forward;
    if Running(s, c, Connecting) && s.channels[c].claim.Some? {
      var ch := s.channels[c];
      if ch.stopped || s.destroyed {
        TaskChangeKeepsInv(s, c, Idle);
      } else if ch.claim.value.phase == Relay {
        TaskChangeKeepsInv(s, c, if Current(s, ch.claim.value.session) then Checking(RelayCheck) else Idle);
      } else {
        LooksOkAt(s, c);
        RendezvousMaySend(PastOf(s), ch);
        ForwardKeepsInv(s, c, ch.(task := Idle, stage := AwaitingReply), ch.request, sent);
      }
    }
  }

  lemma RelayOpenedKeepsInv(s: State, c: ChannelId, sent: bool)
    requires Inv(s)
    ensures Inv(RelayOpened(s, c, sent))
  {
    hide Inv, LooksOk, MaySend, Forward;
    if Running(s, c, RelayMarked) && s.channels[c].claim.Some? {
      var ch := s.channels[c];
      if ch.stopped || s.destroyed {
        TaskChangeKeepsInv(s, c, Idle);
      } else {
        LooksOkAt(s, c);
        RelayMaySend(PastOf(s), ch);
        ForwardKeepsInv(s, c, ch.(task := Idle, stage := Opaque), ch.request, sent);
      }
    }
  }

  lemma ReceivePayloadKeepsInv(s: State, c: ChannelId, sent: bool)
    requires Inv(s)
    ensures Inv(ReceivePayload(s, c, sent))
  {
    hide Inv, LooksOk, MaySend, Forward, Stop;
    if c in s.channels && !s.channels[c].stopped {
      if s.channels[c].stage == Opaque {
        assert SetChannel(s, c, s.channels[c]) == s;
        LooksOkAt(s, c);
        OpaqueMaySend(PastOf(s), s.channels[c], Payload);
        ForwardKeepsInv(s, c, s.channels[c], Payload, sent);
      } else {
        StopKeepsInv(s, c, false);
      }
    }
  }

  // ---- the relay's audit ----

  function Activate(s: State, g: Guid): State
    requires g in s.sessions
  {
    s.(sessions := s.sessions[g := s.sessions[g].(active := true)], audited := s.audited + {g})
  }

  lemma ActivatedIsSame(s: State, g: Guid)
    requires RelaysOk(s) && g in s.sessions
    ensures SameSessions(s, Activate(s, g))
  {
  }

  lemma ActivatingKeepsInv(s: State, g: Guid)
    requires Inv(s) && g in s.sessions
    ensures Inv(Activate(s, g))
  {
    hide GuidsOk, QuietOk, QuotaOk, TicketsOk, ParentsOk, RelaysOk, ChannelsInv, SameSessions;
    ActivatedIsSame(s, g);
    SameSessionsKeepInv(s, Activate(s, g));
    ChannelsUntouched(s, Activate(s, g));
  }

  lemma RelayAuditedKeepsInv(s: State, c: ChannelId, stored: bool)
    requires Inv(s)
    ensures Inv(RelayAudited(s, c, stored))
  {
    hide Inv, CloseGrant;
    if Running(s, c, AuditingRelay) && s.channels[c].claim.Some? {
      var g := s.channels[c].claim.value.session;
      if !stored || !Current(s, g) {
        TaskChangeKeepsInv(s, c, Idle);
        CloseGrantKeepsInv(SetTask(s, c, Idle), g);
      } else {
        ActivatingKeepsInv(s, g);
        TaskChangeKeepsInv(Activate(s, g), c, RelayMarked);
      }
    }
  }

  // ---- the reply and other frames from upstream ----

  lemma ForwardDownKeepsInv(s: State, c: ChannelId, sent: bool)
    requires Inv(s) && c in s.channels
    requires var ch := s.channels[c];
      (ch.stage == AwaitingReply && ch.replied && ch.down == 0) || (ch.stage == Opaque && !ch.stopped)
    ensures Inv(ForwardDown(s, c, sent))
  {
    hide Inv, LooksOk, SameChannel, SameTicket, Stop;
    if sent {
      LooksOkAt(s, c);
      DownLooksOk(PastOf(s), s.channels[c]);
      ChannelChangeKeepsInv(s, c, s.channels[c].(down := s.channels[c].down + 1));
    } else {
      StopKeepsInv(s, c, false);
    }
  }

  lemma BindKeepsTheRest(s: State, g: Guid, uuid: Uuid, c: ChannelId)
    requires GuidsOk(s) && QuietOk(s) && QuotaOk(s) && TicketsOk(s) && g in s.sessions
    ensures var s' := BindRelay(s, g, uuid, c); GuidsOk(s') && QuietOk(s') && QuotaOk(s') && TicketsOk(s')
  {
    var s' := BindRelay(s, g, uuid, c);
    assert s'.sessions.Keys == s.sessions.Keys;
    hide QuotaOk;
    FewerSessionsKeepQuota(s, s');
  }

  lemma BindKeepsParents(s: State, g: Guid, uuid: Uuid, c: ChannelId)
    requires ParentsOk(s) && g in s.sessions
    ensures ParentsOk(BindRelay(s, g, uuid, c))
  {
  }

  lemma BindKeepsRelays(s: State, g: Guid, uuid: Uuid, c: ChannelId)
    requires RelaysOk(s) && MayBind(s, g, uuid)
    ensures RelaysOk(BindRelay(s, g, uuid, c)) && g !in s.bound
  {
  }

  lemma BindKeepsChannels(s: State, g: Guid, uuid: Uuid, c: ChannelId)
    requires AllLookOk(s) && AttachedOk(s) && SocketsOk(s) && TicketUseOk(s) && g in s.sessions && g !in s.bound
    ensures var s' := BindRelay(s, g, uuid, c); AllLookOk(s') && AttachedOk(s') && SocketsOk(s') && TicketUseOk(s')
  {
    hide LooksOk, TicketOf;
    var s' := BindRelay(s, g, uuid, c);
    forall d | d in s'.channels ensures LooksOk(PastOf(s'), s'.channels[d]) {
      GrownLooksOk(PastOf(s), PastOf(s'), s.channels[d]);
    }
    forall d | d in s'.channels && Attached(s'.channels[d]) ensures Registered(s', d) {
      assert Registered(s, d);
    }
  }

  predicate MayBindOn(ch: Channel, g: Guid) {
    ch.replied && ch.claim.Some? && ch.claim.value.session == g && ch.claim.value.phase == Rendezvous
  }

  lemma BindKeepsBound(s: State, g: Guid, uuid: Uuid, c: ChannelId)
    requires BoundOk(s) && g in s.sessions && c in s.channels && MayBindOn(s.channels[c], g)
    ensures BoundOk(BindRelay(s, g, uuid, c))
  {
  }

  lemma BindKeepsInv(s: State, g: Guid, uuid: Uuid, c: ChannelId)
    requires Inv(s) && MayBind(s, g, uuid) && c in s.channels && MayBindOn(s.channels[c], g)
    ensures Inv(BindRelay(s, g, uuid, c))
  {
    hide GuidsOk, QuietOk, QuotaOk, TicketsOk, ParentsOk, RelaysOk, AllLookOk, AttachedOk, SocketsOk, TicketUseOk, BoundOk;
    BindKeepsTheRest(s, g, uuid, c);
    BindKeepsParents(s, g, uuid, c);
    BindKeepsRelays(s, g, uuid, c);
    BindKeepsChannels(s, g, uuid, c);
    BindKeepsBound(s, g, uuid, c);
  }

  lemma ReplyKeepsInv(s: State, c: ChannelId, relay: Option<Uuid>, sent: bool)
    requires Inv(s) && c in s.channels && s.channels[c].stage == AwaitingReply && !s.channels[c].replied
    requires s.channels[c].claim.Some?
    requires relay.Some? ==> MayBind(s, s.channels[c].claim.value.session, relay.value)
    ensures
      var s1 := SetChannel(s, c, s.channels[c].(replied := true));
      var s2 := if relay.Some? then BindRelay(s1, s.channels[c].claim.value.session, relay.value, c) else s1;
      Inv(ForwardDown(s2, c, sent))
  {
    hide Inv, LooksOk, SameChannel, SameTicket, ForwardDown;
    var ch := s.channels[c].(replied := true);
    var s1 := SetChannel(s, c, ch);
    LooksOkAt(s, c);
    RepliedLooksOk(PastOf(s), s.channels[c]);
    ChannelChangeKeepsInv(s, c, ch);
    if relay.Some? {
      BindKeepsInv(s1, ch.claim.value.session, relay.value, c);
      ForwardDownKeepsInv(BindRelay(s1, ch.claim.value.session, relay.value, c), c, sent);
    } else {
      ForwardDownKeepsInv(s1, c, sent);
    }
  }

  lemma ReceiveUpstreamKeepsInv(s: State, c: ChannelId, relay: Option<Uuid>, wellFormed: bool, sent: bool)
    requires Inv(s)
    ensures Inv(ReceiveUpstream(s, c, relay, wellFormed, sent))
  {
    hide Inv, ForwardDown, BindRelay, MayBind, Stop;
    if c in s.channels && !s.channels[c].stopped {
      var ch := s.channels[c];
      StopKeepsInv(s, c, false);
      if ch.stage == AwaitingReply && !ch.replied && ch.claim.Some? {
        if wellFormed && (relay.Some? ==> MayBind(s, ch.claim.value.session, relay.value)) {
          ReplyKeepsInv(s, c, relay, sent);
        }
      } else if ch.stage == Opaque && wellFormed {
        ForwardDownKeepsInv(s, c, sent);
      }
    }
  }
}
