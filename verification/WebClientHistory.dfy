/** What one step of the web client's services may change, and what it leaves for ever. */
module WebClientHistory {
  import opened WebClientState
  import opened WebClientInvariant
  import opened WebClientSteps
  import opened WebClientChannels
  import opened WebClientCreation
  import opened WebClientLifecycle
  import opened Wrappers

  /** What a session is from its request to its end. */
  datatype Identity = Identity(actor: Actor, target: nat, kind: Kind, parent: Option<Guid>, profile: nat, epoch: nat)

  function SessionIdentity(x: Session): Identity {
    Identity(x.actor, x.target, x.kind, x.parent, x.profile, x.epoch)
  }

  function RequestIdentity(x: Create): Identity {
    Identity(x.actor, x.target, x.kind, x.parent, x.profile, x.epoch)
  }

  function Origin(s: State, g: Guid): Option<Identity> {
    if g in s.sessions then Some(SessionIdentity(s.sessions[g]))
    else if g in s.creates then Some(RequestIdentity(s.creates[g])) else None
  }

  /** A session's expiry only comes closer, and once active it stays so. */
  predicate Ages(x: Session, x': Session) {
    x'.createdAt == x.createdAt && x'.expiresAt <= x.expiresAt && (x.active ==> x'.active)
  }

  /** Sessions come from requests, go to the ended ones, and nothing past is taken back. */
  ghost predicate Evolves(s: State, s': State) {
    && s.used <= s'.used && s.ended <= s'.ended && s.epoch <= s'.epoch && Grows(PastOf(s), PastOf(s'))
    && s.boundBy.Keys <= s'.boundBy.Keys && (forall g :: g in s.boundBy ==> s'.boundBy[g] == s.boundBy[g])
    && (forall g :: g in s.sessions && g !in s'.ended ==> g in s'.sessions && Ages(s.sessions[g], s'.sessions[g]))
    && (forall g :: g in s.used ==> Origin(s', g).None? || Origin(s', g) == Origin(s, g))
  }

  lemma EvolvesIsTransitive(s0: State, s1: State, s2: State)
    requires Evolves(s0, s1) && Evolves(s1, s2)
    ensures Evolves(s0, s2)
  {
  }

  /** Requests and sessions are the same ones, from the same epochs. */
  ghost predicate SameOrigins(s: State, s': State) {
    && s'.sessions.Keys == s.sessions.Keys
    && (forall g :: g in s.sessions ==>
          SessionIdentity(s'.sessions[g]) == SessionIdentity(s.sessions[g]) && Ages(s.sessions[g], s'.sessions[g]))
    && s'.creates.Keys == s.creates.Keys
    && (forall g :: g in s.creates ==> RequestIdentity(s'.creates[g]) == RequestIdentity(s.creates[g]))
    && s.used == s'.used && s.ended == s'.ended && s.epoch <= s'.epoch && Grows(PastOf(s), PastOf(s'))
    && s.boundBy.Keys <= s'.boundBy.Keys && (forall g :: g in s.boundBy ==> s'.boundBy[g] == s.boundBy[g])
  }

  lemma SameOriginsEvolve(s: State, s': State)
    requires SameOrigins(s, s')
    ensures Evolves(s, s')
  {
  }

  lemma CloseGrantEvolves(s: State, g: Guid)
    requires GuidsOk(s)
    ensures Evolves(s, CloseGrant(s, g)) && Ended(s, CloseGrant(s, g))
  {
  }

  lemma DetachedEvolves(s: State, c: ChannelId, s2: State)
    requires GuidsOk(s) && c in s.channels && IsDetached(s, c, s2)
    ensures Evolves(s, s2) && Ended(s, s2) && GuidsOk(s2)
  {
  }

  lemma StopEvolves(s: State, c: ChannelId, retain: bool)
    requires GuidsOk(s)
    ensures Evolves(s, Stop(s, c, retain)) && Ended(s, Stop(s, c, retain))
  {
    hide Evolves, CloseGrant, IsDetached, Ended;
    if c in s.channels && !s.channels[c].stopped {
      var s2 := Detached(s, c);
      DetachedIsDetached(s, c);
      DetachedEvolves(s, c, s2);
      if s.channels[c].claim.Some? && !retain {
        CloseGrantEvolves(s2, s.channels[c].claim.value.session);
        EvolvesIsTransitive(s, s2, CloseGrant(s2, s.channels[c].claim.value.session));
        EndedIsTransitive(s, s2, CloseGrant(s2, s.channels[c].claim.value.session));
      }
    } else {
      NothingEvolves(s);
    }
  }

  lemma EndedIsTransitive(s0: State, s1: State, s2: State)
    requires Ended(s0, s1) && Ended(s1, s2)
    ensures Ended(s0, s2)
  {
  }

  lemma NothingEvolves(s: State)
    ensures Evolves(s, s) && Ended(s, s)
  {
  }

  /** A check can only bring a session's expiry closer. */
  lemma ShorteningEvolves(s: State, g: Guid, expiresAt: int, s': State)
    requires GuidsOk(s) && g in s.sessions && expiresAt <= s.sessions[g].expiresAt
    requires s' == s.(sessions := s.sessions[g := s.sessions[g].(expiresAt := expiresAt)])
    ensures Evolves(s, s') && GuidsOk(s')
  {
    assert s'.sessions.Keys == s.sessions.Keys;
    assert SameOrigins(s, s');
    hide SameOrigins, Evolves, Ages;
    SameOriginsEvolve(s, s');
  }

  lemma ShorteningAndClosingEvolves(s: State, g: Guid, s': State)
    requires GuidsOk(s') && Evolves(s, s') && s' == s.(sessions := s'.sessions)
    ensures Evolves(s, CloseGrant(s', g)) && Ended(s, CloseGrant(s', g)) && Ended(s, s')
  {
    hide Evolves, CloseGrant, Ended;
    CloseGrantEvolves(s', g);
    EvolvesIsTransitive(s, s', CloseGrant(s', g));
    EndedIgnoresSessions(s, s', CloseGrant(s', g));
  }

  lemma RecheckEvolves(s: State, g: Guid, allowed: bool, loginExpiry: int)
    requires GuidsOk(s)
    ensures var s' := Recheck(s, g, allowed, loginExpiry).0; Evolves(s, s') && Ended(s, s')
  {
    hide Evolves, CloseGrant, ParentAllows, Ended, GuidsOk;
    CloseGrantEvolves(s, g);
    if allowed && Current(s, g) {
      var x := s.sessions[g];
      var expiresAt := if loginExpiry < x.expiresAt then loginExpiry else x.expiresAt;
      var s' := s.(sessions := s.sessions[g := x.(expiresAt := expiresAt)]);
      ShorteningEvolves(s, g, expiresAt, s');
      ShorteningAndClosingEvolves(s, g, s');
    }
  }

  // ---- one step of one channel ----

  /** Frames only flow on an attached channel; claims, frames and stops are for ever. */
  predicate ChannelMoves(ch: Channel, ch': Channel) {
    && (ch.claim.Some? ==> ch'.claim == ch.claim) && (ch.stopped ==> ch'.stopped)
    && ch.up <= ch'.up && ch.down <= ch'.down
    && ((ch'.up == ch.up && ch'.down == ch.down) || Attached(ch))
  }

  ghost predicate ChannelsMove(s: State, s': State) {
    && s.channels.Keys <= s'.channels.Keys
    && (forall c :: c in s.channels ==> ChannelMoves(s.channels[c], s'.channels[c]))
    && (forall c :: c in s'.channels && c !in s.channels ==> s'.channels[c] == FRESH_CHANNEL)
  }

  ghost predicate Moves(s: State, s': State) {
    Evolves(s, s') && ChannelsMove(s, s')
  }

  /** A channel changes before or after sessions end. */
  lemma ChangeMoves(s: State, s1: State, c: ChannelId, ch': Channel)
    requires GuidsOk(s) && GuidsOk(s1)
    requires Evolves(s, s1) && Ended(s, s1) && c in s1.channels && ChannelMoves(s.channels[c], ch')
    ensures Moves(s, SetChannel(s1, c, ch'))
  {
  }

  lemma ChangeThenEndMoves(s: State, c: ChannelId, ch': Channel, s': State)
    requires GuidsOk(s) && c in s.channels && ChannelMoves(s.channels[c], ch')
    requires Evolves(SetChannel(s, c, ch'), s') && Ended(SetChannel(s, c, ch'), s')
    ensures Moves(s, s')
  {
  }

  /** One channel changes and nothing else. */
  lemma ChannelAloneMoves(s: State, c: ChannelId, ch': Channel)
    requires GuidsOk(s) && c in s.channels && ChannelMoves(s.channels[c], ch')
    ensures Moves(s, SetChannel(s, c, ch'))
  {
  }

  lemma EndingMoves(s: State, s': State)
    requires Evolves(s, s') && Ended(s, s')
    ensures Moves(s, s')
  {
  }

  /** Sessions and requests stay; the past may grow. */
  lemma QuietStepEvolves(s: State, s': State)
    requires s'.sessions == s.sessions && s'.creates == s.creates && s'.used == s.used && s'.ended == s.ended
    requires s.epoch <= s'.epoch && s'.bound == s.bound && s'.boundBy == s.boundBy
    requires s.redeemed <= s'.redeemed && s.audited <= s'.audited
    ensures Evolves(s, s')
  {
  }

  lemma NothingMoves(s: State)
    ensures Moves(s, s)
  {
  }

  lemma InvHasGuids(s: State)
    requires Inv(s)
    ensures GuidsOk(s)
  {
  }

  // ---- requests ----

  lemma BeginCreateMoves(s: State, g: Guid, actor: Actor, target: nat, kind: Kind, parent: Option<Guid>)
    requires GuidsOk(s)
    ensures Moves(s, BeginCreate(s, g, actor, target, kind, parent))
  {
    hide MayReserve, ParentAvailable, ChannelsMove;
    var s' := BeginCreate(s, g, actor, target, kind, parent);
    assert s'.channels == s.channels;
    ChannelsStay(s, s');
    if s' == s {
      NothingEvolves(s);
    } else {
      assert g !in s.used && s'.creates.Keys == s.creates.Keys + {g};
    }
  }

  lemma ChannelsStay(s: State, s': State)
    requires s'.channels == s.channels
    ensures ChannelsMove(s, s')
  {
  }

  lemma SetStepMoves(s: State, s1: State, g: Guid, step: CreateStep)
    requires Moves(s, s1) && g in s1.creates
    ensures Moves(s, SetStep(s1, g, step))
  {
  }

  lemma ParentCheckedMoves(s: State, g: Guid, allowed: bool, loginExpiry: int)
    requires Inv(s)
    ensures Moves(s, ParentChecked(s, g, allowed, loginExpiry))
  {
    hide Inv, Recheck, Moves, Evolves, SetStep;
    if g in s.creates && s.creates[g].step == CheckingParent && s.creates[g].parent.Some? {
      InvHasGuids(s);
      RecheckEvolves(s, s.creates[g].parent.value, allowed, loginExpiry);
      var (s', ok) := Recheck(s, s.creates[g].parent.value, allowed, loginExpiry);
      EndingMoves(s, s');
      SetStepMoves(s, s', g, if ok then Validating else Denying);
    } else {
      NothingMoves(s);
    }
  }

  lemma CreateValidatedMoves(s: State, g: Guid, allowed: bool, loginExpiry: int)
    ensures Moves(s, CreateValidated(s, g, allowed, loginExpiry))
  {
  }

  lemma CreateDeniedMoves(s: State, g: Guid)
    ensures Moves(s, CreateDenied(s, g))
  {
  }

  lemma IssuingMoves(s: State, s': State, g: Guid, rendezvous: Hash, relay: Hash)
    requires GuidsOk(s) && Issues(s, s', g, rendezvous, relay)
    ensures Moves(s, s')
  {
  }

  lemma CreateAuditedMoves(s: State, g: Guid, stored: bool, rendezvous: Hash, relay: Hash)
    requires Inv(s)
    ensures Moves(s, CreateAudited(s, g, stored, rendezvous, relay))
  {
    hide QuietOk, QuotaOk, ParentsOk, RelaysOk, ChannelsInv, Moves, Issues, SetStep;
    NothingMoves(s);
    if g in s.creates {
      CreateAuditedIssues(s, g, stored, rendezvous, relay);
      SetStepMoves(s, s, g, Denying);
      var s' := CreateAudited(s, g, stored, rendezvous, relay);
      hide CreateAudited;
      if s' != s && s' != SetStep(s, g, Denying) {
        IssuingMoves(s, s', g, rendezvous, relay);
      }
    }
  }

  // ---- channels ----

  lemma ConnectMoves(s: State, c: ChannelId)
    ensures Moves(s, Connect(s, c))
  {
    hide Evolves;
    QuietStepEvolves(s, Connect(s, c));
  }

  lemma ReceiveTicketMoves(s: State, c: ChannelId, h: Hash)
    requires Inv(s)
    ensures Moves(s, ReceiveTicket(s, c, h))
  {
    hide Inv, Moves, Evolves, TicketTask, Spend;
    NothingMoves(s);
    if c in s.channels && !s.channels[c].stopped && s.channels[c].stage == AwaitingTicket {
      var s1 := Spend(s, h);
      SpendEvolves(s, h);
      SpendingKeepsInv(s, h);
      InvHasGuids(s1);
      ChannelAloneMoves(s1, c, s.channels[c].(stage := Authorizing, task := TicketTask(s, h)));
      EvolvesThenMoves(s, s1, ReceiveTicket(s, c, h));
    }
  }

  lemma SpendEvolves(s: State, h: Hash)
    ensures Evolves(s, Spend(s, h)) && Spend(s, h).channels == s.channels
  {
  }

  lemma CheckDoneMoves(s: State, c: ChannelId, allowed: bool, loginExpiry: int)
    requires Inv(s)
    ensures Moves(s, CheckDone(s, c, allowed, loginExpiry))
  {
    hide Inv, Recheck, Moves, Evolves;
    NothingMoves(s);
    if c in s.channels && s.channels[c].task.Checking? {
      var check := s.channels[c].task.check;
      var g := CheckedSession(s.channels[c], check);
      if g.Some? {
        InvHasGuids(s);
        RecheckEvolves(s, g.value, allowed, loginExpiry);
        RecheckKeepsInv(s, g.value, allowed, loginExpiry);
        var (s', ok) := Recheck(s, g.value, allowed, loginExpiry);
        InvHasGuids(s');
        ChangeMoves(s, s', c, s'.channels[c].(task := if ok then Passed(check) else Idle));
      }
    }
  }

  lemma ProceedMoves(s: State, c: ChannelId)
    requires Inv(s)
    ensures Moves(s, Proceed(s, c))
  {
    hide Inv, Moves, AfterCheck;
    NothingMoves(s);
    if c in s.channels && s.channels[c].task.Passed? {
      InvHasGuids(s);
      ChannelAloneMoves(s, c, s.channels[c].(task := AfterCheck(s, s.channels[c], s.channels[c].task.check)));
    }
  }

  lemma AttachEvolves(s1: State, c: ChannelId, g: Guid, s': State)
    requires c in s1.channels && Attaches(s1, c, g, s')
    ensures Evolves(s1, s')
  {
    assert SameOrigins(s1, s');
    hide Evolves, SameOrigins, Attaches;
    SameOriginsEvolve(s1, s');
  }

  lemma AttachKeepsOthers(s: State, s1: State, c: ChannelId, g: Guid, s': State)
    requires ChannelsMove(s, s1) && c in s.channels && c in s1.channels && Attaches(s1, c, g, s')
    ensures ChannelsMove(s, s')
  {
    assert forall d :: d in s.channels && d != c ==> s'.channels[d] == s1.channels[d];
  }

  lemma AttachMoves(s: State, s1: State, c: ChannelId, g: Guid, s': State)
    requires Moves(s, s1) && c in s.channels && c in s1.channels && Attaches(s1, c, g, s')
    ensures Moves(s, s')
  {
    hide Evolves, ChannelsMove, Attaches;
    AttachEvolves(s1, c, g, s');
    EvolvesIsTransitive(s, s1, s');
    AttachKeepsOthers(s, s1, c, g, s');
  }

  lemma AuthorizeMoves(s: State, c: ChannelId)
    requires Inv(s)
    ensures Moves(s, Authorize(s, c))
  {
    hide Inv, Moves, Evolves, Ended, CloseGrant, Stop, LooksOk, SameChannel, SameTicket;
    NothingMoves(s);
    if c in s.channels && s.channels[c].task.Claimed? {
      InvHasGuids(s);
      var claim := s.channels[c].task.claim;
      var ch := s.channels[c].(claim := Some(claim), task := Idle);
      var s1 := SetChannel(s, c, ch);
      LooksOkAt(s, c);
      ClaimedHasNoClaim(PastOf(s), s.channels[c]);
      if ch.stopped || s.destroyed {
        CloseGrantEvolves(s1, claim.session);
        ChangeThenEndMoves(s, c, ch, CloseGrant(s1, claim.session));
      } else if !Current(s1, claim.session) || |s1.sessions[claim.session].sockets| >= MAX_SOCKETS {
        StopEvolves(s1, c, false);
        ChangeThenEndMoves(s, c, ch, Stop(s1, c, false));
      } else {
        ChannelAloneMoves(s, c, ch);
        AttachMoves(s, s1, c, claim.session, Authorize(s, c));
      }
    }
  }

  lemma ClaimedHasNoClaim(p: Past, ch: Channel)
    requires LooksOk(p, ch) && ch.task.Claimed?
    ensures ch.claim.None? && ch.stage == Authorizing
  {
  }

  lemma StopMoves(s: State, c: ChannelId, retain: bool)
    requires GuidsOk(s)
    ensures Moves(s, Stop(s, c, retain))
  {
    hide Stop, Moves, Evolves, Ended;
    StopEvolves(s, c, retain);
    EndingMoves(s, Stop(s, c, retain));
  }

  lemma ReceiveRequestMoves(s: State, c: ChannelId, request: Frame)
    requires GuidsOk(s)
    ensures Moves(s, ReceiveRequest(s, c, request))
  {
    hide Stop, Moves, GuidsOk;
    NothingMoves(s);
    StopMoves(s, c, false);
    var s' := ReceiveRequest(s, c, request);
    if s' != s && s' != Stop(s, c, false) {
      ChannelAloneMoves(s, c, s'.channels[c]);
    }
  }

  lemma ForwardMoves(s: State, c: ChannelId, ch: Channel, frame: Frame, sent: bool)
    requires GuidsOk(s) && c in s.channels && ChannelMoves(s.channels[c], ch) && Attached(s.channels[c])
    ensures Moves(s, Forward(SetChannel(s, c, ch), c, frame, sent))
  {
    hide Stop, Moves, Evolves, Ended;
    if sent {
      ChannelAloneMoves(s, c, ch.(up := ch.up + [frame]));
      assert Forward(SetChannel(s, c, ch), c, frame, sent) == SetChannel(s, c, ch.(up := ch.up + [frame]));
    } else {
      StopEvolves(SetChannel(s, c, ch), c, false);
      ChangeThenEndMoves(s, c, ch, Stop(SetChannel(s, c, ch), c, false));
    }
  }

  lemma ConnectedMoves(s: State, c: ChannelId, sent: bool)
    requires Inv(s)
    ensures Moves(s, Connected(s, c, sent))
  {
    hide Inv, Moves, Forward, LooksOk, Current;
    NothingMoves(s);
    if Running(s, c, Connecting) && s.channels[c].claim.Some? {
      InvHasGuids(s);
      LooksOkAt(s, c);
      var ch := s.channels[c];
      RunningIsOpening(PastOf(s), ch);
      if ch.stopped || s.destroyed {
        ChannelAloneMoves(s, c, ch.(task := Idle));
      } else if ch.claim.value.phase == Relay {
        ChannelAloneMoves(s, c, ch.(task := if Current(s, ch.claim.value.session) then Checking(RelayCheck) else Idle));
      } else {
        ForwardMoves(s, c, ch.(task := Idle, stage := AwaitingReply), ch.request, sent);
      }
    }
  }

  lemma RunningIsOpening(p: Past, ch: Channel)
    requires LooksOk(p, ch) && ch.task in {Connecting, AuditingRelay, RelayMarked}
    ensures ch.stage == Opening
  {
  }

  lemma RelayOpenedMoves(s: State, c: ChannelId, sent: bool)
    requires Inv(s)
    ensures Moves(s, RelayOpened(s, c, sent))
  {
    hide Inv, Moves, Forward, LooksOk;
    NothingMoves(s);
    if Running(s, c, RelayMarked) && s.channels[c].claim.Some? {
      InvHasGuids(s);
      LooksOkAt(s, c);
      var ch := s.channels[c];
      RunningIsOpening(PastOf(s), ch);
      if ch.stopped || s.destroyed {
        ChannelAloneMoves(s, c, ch.(task := Idle));
      } else {
        ForwardMoves(s, c, ch.(task := Idle, stage := Opaque), ch.request, sent);
      }
    }
  }

  lemma ReceivePayloadMoves(s: State, c: ChannelId, sent: bool)
    requires Inv(s)
    ensures Moves(s, ReceivePayload(s, c, sent))
  {
    hide Inv, Moves, Forward, Stop;
    NothingMoves(s);
    InvHasGuids(s);
    StopMoves(s, c, false);
    if c in s.channels && !s.channels[c].stopped && s.channels[c].stage == Opaque {
      assert SetChannel(s, c, s.channels[c]) == s;
      ForwardMoves(s, c, s.channels[c], Payload, sent);
    }
  }

  lemma ActivatingMoves(s: State, c: ChannelId, g: Guid)
    requires GuidsOk(s) && c in s.channels && g in s.sessions
    ensures Moves(s, SetTask(Activate(s, g), c, RelayMarked))
  {
  }

  lemma RelayAuditedMoves(s: State, c: ChannelId, stored: bool)
    requires Inv(s)
    ensures Moves(s, RelayAudited(s, c, stored))
  {
    hide Inv, Moves, Evolves, Ended, CloseGrant;
    NothingMoves(s);
    if Running(s, c, AuditingRelay) && s.channels[c].claim.Some? {
      InvHasGuids(s);
      var g := s.channels[c].claim.value.session;
      var ch := s.channels[c].(task := Idle);
      if !stored {
        CloseGrantEvolves(SetChannel(s, c, ch), g);
        ChangeThenEndMoves(s, c, ch, CloseGrant(SetChannel(s, c, ch), g));
      } else if !Current(s, g) {
        ChannelAloneMoves(s, c, ch);
      } else {
        ActivatingMoves(s, c, g);
      }
    }
  }

  // ---- frames from upstream ----

  lemma BindEvolves(s: State, g: Guid, uuid: Uuid, c: ChannelId)
    requires GuidsOk(s) && g in s.sessions && g !in s.bound && g !in s.boundBy
    ensures var s' := BindRelay(s, g, uuid, c); Evolves(s, s') && GuidsOk(s') && s'.channels == s.channels
  {
  }

  lemma EvolvesThenMoves(s: State, s1: State, s2: State)
    requires Evolves(s, s1) && s1.channels == s.channels && Moves(s1, s2)
    ensures Moves(s, s2)
  {
  }

  lemma ForwardDownMoves(s: State, c: ChannelId, ch: Channel, sent: bool)
    requires GuidsOk(s) && c in s.channels && ChannelMoves(s.channels[c], ch) && Attached(s.channels[c])
    ensures Moves(s, ForwardDown(SetChannel(s, c, ch), c, sent))
  {
    hide Stop, Moves, Evolves, Ended;
    if sent {
      ChannelAloneMoves(s, c, ch.(down := ch.down + 1));
      assert ForwardDown(SetChannel(s, c, ch), c, sent) == SetChannel(s, c, ch.(down := ch.down + 1));
    } else {
      StopEvolves(SetChannel(s, c, ch), c, false);
      ChangeThenEndMoves(s, c, ch, Stop(SetChannel(s, c, ch), c, false));
    }
  }

  lemma UnboundIsUnbound(s: State, g: Guid, uuid: Uuid)
    requires Inv(s) && MayBind(s, g, uuid)
    ensures g in s.sessions && g !in s.bound && g !in s.boundBy
  {
  }

  lemma BindingCommutes(s: State, g: Guid, uuid: Uuid, c: ChannelId, ch: Channel)
    requires g in s.sessions
    ensures SetChannel(BindRelay(s, g, uuid, c), c, ch) == BindRelay(SetChannel(s, c, ch), g, uuid, c)
  {
  }

  lemma ReplyMoves(s: State, c: ChannelId, uuid: Uuid, sent: bool)
    requires Inv(s) && c in s.channels && Attached(s.channels[c]) && s.channels[c].claim.Some?
    requires MayBind(s, s.channels[c].claim.value.session, uuid)
    ensures
      var s1 := SetChannel(s, c, s.channels[c].(replied := true));
      Moves(s, ForwardDown(BindRelay(s1, s.channels[c].claim.value.session, uuid, c), c, sent))
  {
    hide Inv, MayBind, Moves, Evolves, GuidsOk, BindRelay, ForwardDown;
    var g := s.channels[c].claim.value.session;
    var ch := s.channels[c].(replied := true);
    UnboundIsUnbound(s, g, uuid);
    InvHasGuids(s);
    BindEvolves(s, g, uuid, c);
    BindingCommutes(s, g, uuid, c, ch);
    RepliedMoves(s.channels[c]);
    var s1 := BindRelay(s, g, uuid, c);
    ForwardDownMoves(s1, c, ch, sent);
    EvolvesThenMoves(s, s1, ForwardDown(SetChannel(s1, c, ch), c, sent));
  }

  lemma RepliedMoves(ch: Channel)
    ensures ChannelMoves(ch, ch.(replied := true))
  {
  }

  lemma ReceiveUpstreamMoves(s: State, c: ChannelId, relay: Option<Uuid>, wellFormed: bool, sent: bool)
    requires Inv(s)
    ensures Moves(s, ReceiveUpstream(s, c, relay, wellFormed, sent))
  {
    hide Inv, Moves, MayBind, BindRelay, ForwardDown, Stop;
    NothingMoves(s);
    InvHasGuids(s);
    StopMoves(s, c, false);
    if c in s.channels && !s.channels[c].stopped {
      var ch := s.channels[c];
      if ch.stage == AwaitingReply && !ch.replied && ch.claim.Some? {
        if relay.None? {
          ForwardDownMoves(s, c, ch.(replied := true), sent);
        } else if MayBind(s, ch.claim.value.session, relay.value) {
          ReplyMoves(s, c, relay.value, sent);
        }
      } else if ch.stage == Opaque {
        assert SetChannel(s, c, ch) == s;
        ForwardDownMoves(s, c, ch, sent);
      }
    }
  }

  // ---- the services ----

  lemma InvalidateAllMoves(s: State, s': State)
    requires GuidsOk(s)
    requires s' == Invalidate(s, s.sessions.Keys).(overdue := s'.overdue, epoch := s'.epoch, stopped := s'.stopped)
    requires s.epoch <= s'.epoch
    ensures Moves(s, s')
  {
  }

  lemma DestroyMoves(s: State)
    ensures Moves(s, Destroy(s))
  {
  }

  lemma EasingMoves(s: State, s': State)
    requires s' == s.(now := s'.now, profile := s'.profile, overdue := s'.overdue, tickets := s'.tickets)
    ensures Moves(s, s')
  {
  }

  lemma EpochStays(s: State)
    ensures Invalidate(s, s.sessions.Keys).epoch == s.epoch
  {
  }

  lemma TimeOutMoves(s: State, id: nat)
    requires Inv(s)
    ensures Moves(s, TimeOut(s, id))
  {
    InvHasGuids(s);
    EpochStays(s);
    hide Inv, Moves, Invalidate;
    InvalidateAllMoves(s, TimeOut(s, id));
  }

  lemma ShutDownMoves(s: State)
    requires Inv(s)
    ensures Moves(s, ShutDown(s))
  {
    InvHasGuids(s);
    EpochStays(s);
    hide Inv, Moves, Invalidate;
    InvalidateAllMoves(s, ShutDown(s));
  }

  lemma RecheckMoves(s: State, g: Guid, allowed: bool, expiry: int)
    requires GuidsOk(s)
    ensures Moves(s, Recheck(s, g, allowed, expiry).0)
  {
    hide Moves, Evolves, Ended, Recheck, GuidsOk;
    RecheckEvolves(s, g, allowed, expiry);
    EndingMoves(s, Recheck(s, g, allowed, expiry).0);
  }

  lemma CloseGrantMoves(s: State, g: Guid)
    requires GuidsOk(s)
    ensures Moves(s, CloseGrant(s, g))
  {
    hide Moves, Evolves, Ended, CloseGrant, GuidsOk;
    CloseGrantEvolves(s, g);
    EndingMoves(s, CloseGrant(s, g));
  }

  lemma EasingStepMoves(s: State, step: Step)
    requires step.SettleStep? || step.PurgeStep? || step.TickStep? || step.ReconfigureStep?
    ensures Moves(s, Next(s, step))
  {
    hide Moves;
    match step
    case SettleStep(id) => EasingMoves(s, Settle(s, id));
    case PurgeStep => EasingMoves(s, PurgeTickets(s));
    case TickStep(ms) => EasingMoves(s, s.(now := s.now + ms));
    case ReconfigureStep(profile) => EasingMoves(s, s.(profile := profile));
  }

  lemma ChannelStepMoves(s: State, step: Step)
    requires Inv(s) && OfChannel(step) && GuidsOk(s)
    ensures Moves(s, Next(s, step))
  {
    hide Inv, Moves, Connect, ReceiveTicket, CheckDone, Proceed, Authorize, ReceiveRequest, Connected, RelayAudited;
    hide RelayOpened, ReceiveUpstream, ReceivePayload, Stop, GuidsOk;
    hide BeginCreate, ParentChecked, CreateValidated, CreateAudited, CreateDenied, Recheck, CloseGrant, TimeOut, ShutDown;
    hide Settle, PurgeTickets, Destroy;
    match step
    case ConnectStep(c) => ConnectMoves(s, c);
    case TicketStep(c, h) => ReceiveTicketMoves(s, c, h);
    case AuthorizeStep(c) => AuthorizeMoves(s, c);
    case RequestStep(c, request) => ReceiveRequestMoves(s, c, request);
    case CheckStep(c, allowed, expiry) => CheckDoneMoves(s, c, allowed, expiry);
    case ProceedStep(c) => ProceedMoves(s, c);
    case ConnectedStep(c, sent) => ConnectedMoves(s, c, sent);
    case RelayAuditedStep(c, stored) => RelayAuditedMoves(s, c, stored);
    case RelayOpenedStep(c, sent) => RelayOpenedMoves(s, c, sent);
    case UpstreamStep(c, bind, wellFormed, sent) => ReceiveUpstreamMoves(s, c, bind, wellFormed, sent);
    case PayloadStep(c, sent) => ReceivePayloadMoves(s, c, sent);
    case StopStep(c, retain) => StopMoves(s, c, retain);
  }

  lemma ServiceStepMoves(s: State, step: Step)
    requires Inv(s) && !OfChannel(step)
    ensures Moves(s, Next(s, step))
  {
    InvHasGuids(s);
    hide Inv, Moves, BeginCreate, ParentChecked, CreateValidated, CreateAudited, CreateDenied;
    hide Recheck, CloseGrant, TimeOut, ShutDown, Settle, PurgeTickets, Destroy, GuidsOk;
    match step
    case BeginCreateStep(g, actor, target, kind, parent) => BeginCreateMoves(s, g, actor, target, kind, parent);
    case ParentCheckedStep(g, allowed, expiry) => ParentCheckedMoves(s, g, allowed, expiry);
    case CreateValidatedStep(g, allowed, expiry) => CreateValidatedMoves(s, g, allowed, expiry);
    case CreateAuditedStep(g, stored, rendezvous, relay) => CreateAuditedMoves(s, g, stored, rendezvous, relay);
    case CreateDeniedStep(g) => CreateDeniedMoves(s, g);
    case DestroyStep => DestroyMoves(s);
    case TimeOutStep(id) => TimeOutMoves(s, id);
    case ShutDownStep => ShutDownMoves(s);
    case RecheckStep(g, allowed, expiry) => RecheckMoves(s, g, allowed, expiry);
    case CloseGrantStep(g) => CloseGrantMoves(s, g);
    case _ => EasingStepMoves(s, step);
  }

  /** Every step of every actor moves the state only forward. */
  lemma NextMoves(s: State, step: Step)
    requires Inv(s)
    ensures Moves(s, Next(s, step))
  {
    InvHasGuids(s);
    hide Inv, Moves, Next, GuidsOk;
    if OfChannel(step) {
      ChannelStepMoves(s, step);
    } else {
      ServiceStepMoves(s, step);
    }
  }
}
