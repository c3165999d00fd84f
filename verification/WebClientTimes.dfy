/** When sessions and tickets end: from the first answer of their login's authorization, over every run. */
module WebClientTimes {
  import opened WebClientState
  import opened WebClientInvariant
  import opened WebClientSteps
  import opened WebClientHistory
  import opened WebClientRuns
  import opened Wrappers

  predicate Earliest(e: int, ends: set<int>) {
    e in ends && forall b :: b in ends ==> e <= b
  }

  /** The step is an answer that allows session `g` until `e`. */
  predicate Answers(s: State, step: Step, g: Guid, e: int) {
    match step
    case RecheckStep(h, allowed, expiry) => allowed && expiry == e && h == g
    case ParentCheckedStep(h, allowed, expiry) => allowed && expiry == e && h in s.creates && s.creates[h].parent == Some(g)
    case CheckStep(c, allowed, expiry) =>
      && allowed && expiry == e && c in s.channels && s.channels[c].task.Checking?
      && CheckedSession(s.channels[c], s.channels[c].task.check) == Some(g)
    case _ => false
  }

  // ---- what one step leaves of the times ----

  /** No session and no ticket is new, and none has another time. */
  predicate SameTimes(s: State, s': State) {
    && s'.sessions.Keys <= s.sessions.Keys && s'.tickets.Keys <= s.tickets.Keys
    && (forall g :: g in s'.sessions ==>
          s'.sessions[g].createdAt == s.sessions[g].createdAt && s'.sessions[g].expiresAt == s.sessions[g].expiresAt
          && s'.sessions[g].parent == s.sessions[g].parent)
    && (forall h :: h in s'.tickets ==> s'.tickets[h] == s.tickets[h])
    && (forall g :: g in s'.creates && s'.creates[g].step.Auditing? ==> g in s.creates && s'.creates[g] == s.creates[g])
  }

  /** As above, but for sessions that an answer has shortened. */
  ghost predicate Shortened(s: State, s': State, step: Step) {
    && s'.sessions.Keys <= s.sessions.Keys && s'.tickets.Keys <= s.tickets.Keys
    && (forall g :: g in s'.sessions ==>
          && s'.sessions[g].createdAt == s.sessions[g].createdAt && s'.sessions[g].parent == s.sessions[g].parent
          && (s'.sessions[g].expiresAt == s.sessions[g].expiresAt
              || (s'.sessions[g].expiresAt < s.sessions[g].expiresAt && Answers(s, step, g, s'.sessions[g].expiresAt))))
    && (forall h :: h in s'.tickets ==> s'.tickets[h] == s.tickets[h])
    && (forall g :: g in s'.creates && s'.creates[g].step.Auditing? ==> g in s.creates && s'.creates[g] == s.creates[g])
  }

  lemma SameIsShortened(s: State, s': State, step: Step)
    requires SameTimes(s, s')
    ensures Shortened(s, s', step)
  {
  }

  lemma SameTimesTwice(s0: State, s1: State, s2: State)
    requires SameTimes(s0, s1) && SameTimes(s1, s2)
    ensures SameTimes(s0, s2)
  {
  }

  lemma CloseGrantKeepsTimes(s: State, g: Guid)
    ensures SameTimes(s, CloseGrant(s, g))
  {
  }

  lemma StopKeepsTimes(s: State, c: ChannelId, retain: bool)
    ensures SameTimes(s, Stop(s, c, retain))
  {
    hide SameTimes, CloseGrant;
    if c in s.channels && !s.channels[c].stopped {
      DetachedIsDetached(s, c);
      DetachedKeepsTimes(s, c, Detached(s, c));
      if s.channels[c].claim.Some? {
        CloseGrantKeepsTimes(Detached(s, c), s.channels[c].claim.value.session);
        SameTimesTwice(s, Detached(s, c), CloseGrant(Detached(s, c), s.channels[c].claim.value.session));
      }
    } else {
      NothingKeepsTimes(s);
    }
  }

  lemma DetachedKeepsTimes(s: State, c: ChannelId, s2: State)
    requires c in s.channels && IsDetached(s, c, s2)
    ensures SameTimes(s, s2)
  {
  }

  lemma NothingKeepsTimes(s: State)
    ensures SameTimes(s, s)
  {
  }

  lemma ChannelKeepsTimes(s: State, c: ChannelId, ch: Channel)
    ensures SameTimes(s, SetChannel(s, c, ch))
  {
  }

  lemma RecheckShortens(s: State, g: Guid, allowed: bool, expiry: int, step: Step)
    requires allowed ==> Answers(s, step, g, expiry)
    ensures Shortened(s, Recheck(s, g, allowed, expiry).0, step)
    ensures Recheck(s, g, allowed, expiry).0.creates == s.creates
  {
    hide SameTimes, CloseGrant, ParentAllows, Answers, Current, Shortened;
    CloseGrantKeepsTimes(s, g);
    SameIsShortened(s, CloseGrant(s, g), step);
    CreatesStay(s, g);
    if allowed && Current(s, g) {
      CurrentIsThere(s, g);
      var x := s.sessions[g];
      var s' := s.(sessions := s.sessions[g := x.(expiresAt := if expiry < x.expiresAt then expiry else x.expiresAt)]);
      OneIsShortened(s, g, expiry, s', step);
      CloseGrantKeepsTimes(s', g);
      CreatesStay(s', g);
      ShortenedThenSame(s, s', CloseGrant(s', g), step);
    }
  }

  lemma CreatesStay(s: State, g: Guid)
    ensures CloseGrant(s, g).creates == s.creates
  {
  }

  lemma OneIsShortened(s: State, g: Guid, e: int, s': State, step: Step)
    requires g in s.sessions && Answers(s, step, g, e)
    requires s' == s.(sessions := s.sessions[g := s.sessions[g].(expiresAt :=
      if e < s.sessions[g].expiresAt then e else s.sessions[g].expiresAt)])
    ensures Shortened(s, s', step)
  {
    hide Answers;
  }

  lemma ShortenedThenSame(s0: State, s1: State, s2: State, step: Step)
    requires Shortened(s0, s1, step) && SameTimes(s1, s2)
    ensures Shortened(s0, s2, step)
  {
    hide Answers;
  }

  /** Every step but the two that stamp a session and its tickets. */
  lemma OtherStepsShorten(s: State, step: Step)
    requires !step.CreateValidatedStep? && !step.CreateAuditedStep?
    ensures Shortened(s, Next(s, step), step)
  {
    hide Shortened, SameTimes, Answers, BeginCreate, ParentChecked, CreateValidated, CreateAudited, CreateDenied, Connect, ReceiveTicket;
    hide CheckDone, Proceed, Authorize, ReceiveRequest, Connected, RelayAudited, RelayOpened, ReceiveUpstream, ReceivePayload;
    hide Stop, Recheck, CloseGrant, TimeOut, Settle, PurgeTickets, ShutDown, Destroy;
    match step
    case RecheckStep(g, allowed, expiry) => RecheckStepShortens(s, g, allowed, expiry, step);
    case ParentCheckedStep(g, allowed, expiry) => ParentCheckedShortens(s, g, allowed, expiry, step);
    case CheckStep(c, allowed, expiry) => CheckShortens(s, c, allowed, expiry, step);
    case _ =>
      QuietStepsKeepTimes(s, step);
      SameIsShortened(s, Next(s, step), step);
  }

  lemma RecheckStepShortens(s: State, g: Guid, allowed: bool, expiry: int, step: Step)
    requires step == RecheckStep(g, allowed, expiry)
    ensures Shortened(s, Recheck(s, g, allowed, expiry).0, step)
  {
    hide Shortened, Recheck;
    RecheckShortens(s, g, allowed, expiry, step);
  }

  lemma ParentCheckedShortens(s: State, g: Guid, allowed: bool, expiry: int, step: Step)
    requires step == ParentCheckedStep(g, allowed, expiry)
    ensures Shortened(s, ParentChecked(s, g, allowed, expiry), step)
  {
    hide Shortened, Recheck, SameTimes;
    NothingKeepsTimes(s);
    SameIsShortened(s, s, step);
    if g in s.creates && s.creates[g].parent.Some? {
      RecheckShortens(s, s.creates[g].parent.value, allowed, expiry, step);
      var s' := Recheck(s, s.creates[g].parent.value, allowed, expiry).0;
      StampKeepsTimes(s', g, Validating);
      StampKeepsTimes(s', g, Denying);
      ShortenedThenSame(s, s', SetStep(s', g, Validating), step);
      ShortenedThenSame(s, s', SetStep(s', g, Denying), step);
    }
  }

  lemma StampKeepsTimes(s: State, g: Guid, step: CreateStep)
    requires g in s.creates && !step.Auditing?
    ensures SameTimes(s, SetStep(s, g, step))
  {
  }

  lemma CheckShortens(s: State, c: ChannelId, allowed: bool, expiry: int, step: Step)
    requires step == CheckStep(c, allowed, expiry)
    ensures Shortened(s, CheckDone(s, c, allowed, expiry), step)
  {
    hide Shortened, Recheck, SameTimes;
    NothingKeepsTimes(s);
    SameIsShortened(s, s, step);
    if c in s.channels && s.channels[c].task.Checking? {
      var g := CheckedSession(s.channels[c], s.channels[c].task.check);
      if g.Some? {
        RecheckShortens(s, g.value, allowed, expiry, step);
        var s' := Recheck(s, g.value, allowed, expiry).0;
        var done := CheckDone(s, c, allowed, expiry);
        RecheckKeepsChannels(s, g.value, allowed, expiry);
        ChannelKeepsTimes(s', c, done.channels[c]);
        ShortenedThenSame(s, s', done, step);
      }
    }
  }

  lemma RecheckKeepsChannels(s: State, g: Guid, allowed: bool, expiry: int)
    ensures Recheck(s, g, allowed, expiry).0.channels.Keys == s.channels.Keys
  {
  }

  lemma QuietStepsKeepTimes(s: State, step: Step)
    requires !step.CreateValidatedStep? && !step.CreateAuditedStep?
    requires !step.RecheckStep? && !step.ParentCheckedStep? && !step.CheckStep?
    ensures SameTimes(s, Next(s, step))
  {
    hide SameTimes, BeginCreate, CreateDenied, Connect, ReceiveTicket;
    hide Proceed, Authorize, ReceiveRequest, Connected, RelayAudited, RelayOpened, ReceiveUpstream, ReceivePayload;
    hide Stop, CloseGrant, TimeOut, Settle, PurgeTickets, ShutDown, Destroy;
    match step
    case BeginCreateStep(g, actor, target, kind, parent) => BeginCreateKeepsTimes(s, g, actor, target, kind, parent);
    case CreateDeniedStep(g) => ServicesKeepTimes(s, step);
    case ConnectStep(c) => GatewayKeepsTimes(s, step);
    case TicketStep(c, h) => GatewayKeepsTimes(s, step);
    case AuthorizeStep(c) => AuthorizeKeepsTimes(s, c);
    case RequestStep(c, request) => RequestKeepsTimes(s, c, request);
    case ProceedStep(c) => GatewayKeepsTimes(s, step);
    case ConnectedStep(c, sent) => ConnectedKeepsTimes(s, c, sent);
    case RelayAuditedStep(c, stored) => RelayAuditedKeepsTimes(s, c, stored);
    case RelayOpenedStep(c, sent) => RelayOpenedKeepsTimes(s, c, sent);
    case UpstreamStep(c, bind, wellFormed, sent) => UpstreamKeepsTimes(s, c, bind, wellFormed, sent);
    case PayloadStep(c, sent) => PayloadKeepsTimes(s, c, sent);
    case StopStep(c, retain) => StopKeepsTimes(s, c, retain);
    case CloseGrantStep(g) => CloseGrantKeepsTimes(s, g);
    case _ => ServicesKeepTimes(s, step);
  }

  lemma BeginCreateKeepsTimes(s: State, g: Guid, actor: Actor, target: nat, kind: Kind, parent: Option<Guid>)
    ensures SameTimes(s, BeginCreate(s, g, actor, target, kind, parent))
  {
    hide MayReserve, ParentAvailable;
  }

  lemma ServicesKeepTimes(s: State, step: Step)
    requires step.CreateDeniedStep? || step.TimeOutStep? || step.SettleStep? || step.PurgeStep? || step.TickStep?
      || step.ReconfigureStep? || step.ShutDownStep? || step.DestroyStep?
    ensures SameTimes(s, Next(s, step))
  {
    hide SameTimes, BeginCreate, ParentChecked, CreateValidated, CreateAudited, CreateDenied, Connect, ReceiveTicket;
    hide CheckDone, Proceed, Authorize, ReceiveRequest, Connected, RelayAudited, RelayOpened, ReceiveUpstream, ReceivePayload;
    hide Stop, Recheck, CloseGrant, TimeOut, PurgeTickets, ShutDown, Destroy;
    match step
    case CreateDeniedStep(g) => DeniedKeepsTimes(s, g);
    case TimeOutStep(id) => EndingKeepsTimes(s, id);
    case ShutDownStep => EndingKeepsTimes(s, 0);
    case DestroyStep => DestroyKeepsTimes(s);
    case PurgeStep => PurgeKeepsTimes(s);
    case _ => ClocksKeepTimes(s, Next(s, step));
  }

  lemma DeniedKeepsTimes(s: State, g: Guid)
    ensures SameTimes(s, CreateDenied(s, g))
  {
    NothingKeepsTimes(s);
  }

  lemma EndingKeepsTimes(s: State, id: nat)
    ensures SameTimes(s, TimeOut(s, id)) && SameTimes(s, ShutDown(s))
  {
  }

  lemma DestroyKeepsTimes(s: State)
    ensures SameTimes(s, Destroy(s))
  {
  }

  lemma PurgeKeepsTimes(s: State)
    ensures SameTimes(s, PurgeTickets(s))
  {
  }

  lemma ClocksKeepTimes(s: State, s': State)
    requires s' == s.(now := s'.now, profile := s'.profile, overdue := s'.overdue)
    ensures SameTimes(s, s')
  {
  }

  lemma GatewayKeepsTimes(s: State, step: Step)
    requires step.ConnectStep? || step.TicketStep? || step.ProceedStep?
    ensures SameTimes(s, Next(s, step))
  {
    hide SameTimes, TicketTask, AfterCheck, Spend;
    NothingKeepsTimes(s);
    match step
    case ConnectStep(c) => ChannelKeepsTimes(s, c, FRESH_CHANNEL);
    case TicketStep(c, h) =>
      SpendKeepsTimes(s, h);
      if c in s.channels {
        var ch := s.channels[c].(stage := Authorizing, task := TicketTask(s, h));
        ChannelKeepsTimes(Spend(s, h), c, ch);
        SameTimesTwice(s, Spend(s, h), SetChannel(Spend(s, h), c, ch));
      }
    case ProceedStep(c) =>
      if c in s.channels && s.channels[c].task.Passed? {
        ChannelKeepsTimes(s, c, s.channels[c].(task := AfterCheck(s, s.channels[c], s.channels[c].task.check)));
      }
  }

  lemma SpendKeepsTimes(s: State, h: Hash)
    ensures SameTimes(s, Spend(s, h))
  {
  }

  lemma AuthorizeKeepsTimes(s: State, c: ChannelId)
    ensures SameTimes(s, Authorize(s, c))
  {
    hide SameTimes, CloseGrant, Stop, Current;
    NothingKeepsTimes(s);
    if c in s.channels && s.channels[c].task.Claimed? {
      var claim := s.channels[c].task.claim;
      var s1 := SetChannel(s, c, s.channels[c].(claim := Some(claim), task := Idle));
      ChannelKeepsTimes(s, c, s1.channels[c]);
      CloseGrantKeepsTimes(s1, claim.session);
      SameTimesTwice(s, s1, CloseGrant(s1, claim.session));
      StopKeepsTimes(s1, c, false);
      SameTimesTwice(s, s1, Stop(s1, c, false));
      if Current(s1, claim.session) {
        CurrentIsThere(s1, claim.session);
        AttachKeepsTimes(s, c);
      }
    }
  }

  lemma AttachKeepsTimes(s: State, c: ChannelId)
    requires c in s.channels && s.channels[c].task.Claimed? && s.channels[c].task.claim.session in s.sessions
    ensures
      var claim := s.channels[c].task.claim;
      var ch := s.channels[c].(claim := Some(claim), task := Idle);
      var s1 := SetChannel(s, c, ch);
      var x := s1.sessions[claim.session];
      SameTimes(
        s, SetChannel(s1.(sessions := s1.sessions[claim.session := x.(sockets := x.sockets + {c})]), c, ch.(stage := AwaitingRequest)))
  {
  }

  lemma RequestKeepsTimes(s: State, c: ChannelId, request: Frame)
    ensures SameTimes(s, ReceiveRequest(s, c, request))
  {
    hide SameTimes, Stop;
    NothingKeepsTimes(s);
    StopKeepsTimes(s, c, false);
    if c in s.channels {
      ChannelKeepsTimes(s, c, s.channels[c].(stage := Opening, task := Checking(OpenCheck), request := request));
    }
  }

  lemma ForwardKeepsTimes(s: State, c: ChannelId, ch: Channel, frame: Frame, sent: bool)
    requires c in s.channels
    ensures SameTimes(s, Forward(SetChannel(s, c, ch), c, frame, sent)) && SameTimes(s, ForwardDown(SetChannel(s, c, ch), c, sent))
  {
    hide SameTimes, Stop;
    var s1 := SetChannel(s, c, ch);
    ChannelKeepsTimes(s, c, ch);
    StopKeepsTimes(s1, c, false);
    ChannelKeepsTimes(s1, c, ch.(up := ch.up + [frame]));
    ChannelKeepsTimes(s1, c, ch.(down := ch.down + 1));
    SameTimesTwice(s, s1, Forward(s1, c, frame, sent));
    SameTimesTwice(s, s1, ForwardDown(s1, c, sent));
  }

  lemma ConnectedKeepsTimes(s: State, c: ChannelId, sent: bool)
    ensures SameTimes(s, Connected(s, c, sent))
  {
    hide SameTimes, Forward, Current;
    NothingKeepsTimes(s);
    if c in s.channels {
      var ch := s.channels[c];
      forall task ensures SameTimes(s, SetChannel(s, c, ch.(task := task))) {
        ChannelKeepsTimes(s, c, ch.(task := task));
      }
      ForwardKeepsTimes(s, c, ch.(task := Idle, stage := AwaitingReply), ch.request, sent);
    }
  }

  lemma RelayOpenedKeepsTimes(s: State, c: ChannelId, sent: bool)
    ensures SameTimes(s, RelayOpened(s, c, sent))
  {
    hide SameTimes, Forward;
    NothingKeepsTimes(s);
    if c in s.channels {
      var ch := s.channels[c];
      ChannelKeepsTimes(s, c, ch.(task := Idle));
      ForwardKeepsTimes(s, c, ch.(task := Idle, stage := Opaque), ch.request, sent);
    }
  }

  lemma RelayAuditedKeepsTimes(s: State, c: ChannelId, stored: bool)
    ensures SameTimes(s, RelayAudited(s, c, stored))
  {
    hide SameTimes, CloseGrant, Current;
    NothingKeepsTimes(s);
    if c in s.channels && s.channels[c].claim.Some? {
      var g := s.channels[c].claim.value.session;
      var idle := s.channels[c].(task := Idle);
      ChannelKeepsTimes(s, c, idle);
      CloseGrantKeepsTimes(SetChannel(s, c, idle), g);
      SameTimesTwice(s, SetChannel(s, c, idle), CloseGrant(SetChannel(s, c, idle), g));
      if Current(s, g) {
        CurrentIsThere(s, g);
        var x := s.sessions[g];
        var s1 := SetChannel(s, c, s.channels[c].(task := RelayMarked));
        ActivityKeepsTimes(s, s1.(sessions := s1.sessions[g := x.(active := true)], audited := s1.audited + {g}), g);
      }
    }
  }

  lemma ActivityKeepsTimes(s: State, s': State, g: Guid)
    requires g in s.sessions && s'.tickets == s.tickets && s'.creates == s.creates
    requires exists x' ::
      s'.sessions == s.sessions[g := x'] && x'.createdAt == s.sessions[g].createdAt
      && x'.expiresAt == s.sessions[g].expiresAt && x'.parent == s.sessions[g].parent
    ensures SameTimes(s, s')
  {
  }

  lemma UpstreamKeepsTimes(s: State, c: ChannelId, relay: Option<Uuid>, wellFormed: bool, sent: bool)
    ensures SameTimes(s, ReceiveUpstream(s, c, relay, wellFormed, sent))
  {
    hide SameTimes, Stop, MayBind, ForwardDown;
    NothingKeepsTimes(s);
    StopKeepsTimes(s, c, false);
    if c in s.channels {
      var ch := s.channels[c];
      ForwardKeepsTimes(s, c, ch, Payload, sent);
      assert SetChannel(s, c, ch) == s;
      ForwardKeepsTimes(s, c, ch.(replied := true), Payload, sent);
      if relay.Some? && ch.claim.Some? && MayBind(s, ch.claim.value.session, relay.value) {
        var g := BindableIsThere(s, ch.claim.value.session, relay.value);
        var s1 := BindRelay(s, g, relay.value, c);
        BindKeepsTimes(s, g, relay.value, c);
        BindingCommutes(s, g, relay.value, c, ch.(replied := true));
        ForwardKeepsTimes(s1, c, ch.(replied := true), Payload, sent);
        SameTimesTwice(s, s1, ForwardDown(SetChannel(s1, c, ch.(replied := true)), c, sent));
      }
    }
  }

  lemma BindableIsThere(s: State, g0: Guid, uuid: Uuid) returns (g: Guid)
    requires MayBind(s, g0, uuid)
    ensures g == g0 && g in s.sessions
  {
    g := g0;
  }

  lemma BindKeepsTimes(s: State, g: Guid, uuid: Uuid, c: ChannelId)
    requires g in s.sessions
    ensures SameTimes(s, BindRelay(s, g, uuid, c))
  {
  }

  lemma PayloadKeepsTimes(s: State, c: ChannelId, sent: bool)
    ensures SameTimes(s, ReceivePayload(s, c, sent))
  {
    hide SameTimes, Stop, Forward;
    NothingKeepsTimes(s);
    StopKeepsTimes(s, c, false);
    if c in s.channels {
      assert SetChannel(s, c, s.channels[c]) == s;
      ForwardKeepsTimes(s, c, s.channels[c], Payload, sent);
    }
  }

  // ---- where a session's times come from ----

  /** When a parent ends, if there is one. */
  function ParentEnd(s: State, parent: Option<Guid>): set<int> {
    if parent.Some? && parent.value in s.sessions then {s.sessions[parent.value].expiresAt} else {}
  }

  /** In the step after `s` an authorization that lasts until `expiry` lets request `g` become a session
      that ends at `first`: after eight hours, with the login, or with the parent. */
  ghost predicate Stamps(s: State, step: Step, g: Guid, parent: Option<Guid>, createdAt: int, first: int) {
    && step.CreateValidatedStep? && step.g == g && step.allowed && g in s.creates && s.creates[g].step == Validating
    && s.creates[g].parent == parent
    && createdAt == s.now && Earliest(first, {s.now + SESSION_MS, step.expiry} + ParentEnd(s, parent))
  }

  datatype Times = Times(parent: Option<Guid>, createdAt: int, expiresAt: int)

  /** The times of a session, or of a request that waits for its audit. */
  function TimesOf(s: State, g: Guid): Option<Times> {
    if g in s.sessions then Some(Times(s.sessions[g].parent, s.sessions[g].createdAt, s.sessions[g].expiresAt))
    else if g in s.creates && s.creates[g].step.Auditing? then
      Some(Times(s.creates[g].parent, s.creates[g].step.createdAt, s.creates[g].step.expiresAt))
    else None
  }

  lemma ShorteningTimes(s: State, s': State, step: Step, g: Guid)
    requires Shortened(s, s', step) && TimesOf(s', g).Some? && (g !in s.sessions || g !in s.creates)
    ensures
      && TimesOf(s, g).Some?
      && var t, t' := TimesOf(s, g).value, TimesOf(s', g).value;
         t'.parent == t.parent && t'.createdAt == t.createdAt
         && (t'.expiresAt == t.expiresAt || (t'.expiresAt < t.expiresAt && Answers(s, step, g, t'.expiresAt)))
  {
    hide Answers;
  }

  lemma ValidationStamps(s: State, g: Guid, allowed: bool, expiry: int, k: Guid)
    requires TimesOf(CreateValidated(s, g, allowed, expiry), k).Some?
    ensures
      var t' := TimesOf(CreateValidated(s, g, allowed, expiry), k);
      t' == TimesOf(s, k)
      || Stamps(s, CreateValidatedStep(g, allowed, expiry), k, t'.value.parent, t'.value.createdAt, t'.value.expiresAt)
  {
  }

  lemma IssuingKeepsStamp(s: State, g: Guid, stored: bool, rendezvous: Hash, relay: Hash, k: Guid)
    requires TimesOf(CreateAudited(s, g, stored, rendezvous, relay), k).Some? && (k !in s.sessions || k !in s.creates)
    ensures TimesOf(CreateAudited(s, g, stored, rendezvous, relay), k) == TimesOf(s, k)
  {
  }

  /** Since step `i` an answer has allowed session `g` until `e`. */
  ghost predicate AnsweredSince(steps: seq<Step>, i: nat, g: Guid, e: int) {
    exists j: nat :: i < j < |steps| && Answers(After(steps[..j]), steps[j], g, e)
  }

  lemma AnsweredStays(steps: seq<Step>, i: nat, g: Guid, e: int)
    requires steps != [] && AnsweredSince(steps[..|steps| - 1], i, g, e)
    ensures AnsweredSince(steps, i, g, e)
  {
    hide After, Answers;
    var before := steps[..|steps| - 1];
    var j: nat :| i < j < |before| && Answers(After(before[..j]), before[j], g, e);
    assert before[..j] == steps[..j];
  }

  /** The times of a session come from its stamp, and an answer may have shortened them since. */
  ghost predicate Stamped(steps: seq<Step>, g: Guid, t: Times, i: nat, first: int) {
    && i < |steps| && Stamps(After(steps[..i]), steps[i], g, t.parent, t.createdAt, first)
    && (t.expiresAt == first || (t.expiresAt < first && AnsweredSince(steps, i, g, t.expiresAt)))
  }

  lemma StampedStays(steps: seq<Step>, g: Guid, t: Times, i: nat, first: int)
    requires steps != [] && Stamped(steps[..|steps| - 1], g, t, i, first)
    ensures Stamped(steps, g, t, i, first)
  {
    hide After, Stamps, AnsweredSince;
    var before := steps[..|steps| - 1];
    assert before[..i] == steps[..i];
    if t.expiresAt != first {
      AnsweredStays(steps, i, g, t.expiresAt);
    }
  }

  lemma NowShortened(steps: seq<Step>, g: Guid, t: Times, i: nat, first: int, e: int)
    requires steps != [] && Stamped(steps[..|steps| - 1], g, t, i, first) && e < t.expiresAt
    requires Answers(After(steps[..|steps| - 1]), steps[|steps| - 1], g, e)
    ensures Stamped(steps, g, t.(expiresAt := e), i, first)
  {
    hide After, Stamps, Answers;
    StampedStays(steps, g, t, i, first);
    var j := |steps| - 1;
    assert i < j < |steps| && Answers(After(steps[..j]), steps[j], g, e);
  }

  lemma NowStamped(steps: seq<Step>, g: Guid, t: Times)
    requires steps != []
    requires Stamps(After(steps[..|steps| - 1]), steps[|steps| - 1], g, t.parent, t.createdAt, t.expiresAt)
    ensures Stamped(steps, g, t, |steps| - 1, t.expiresAt)
  {
    hide After, Stamps;
  }

  lemma {:induction false} EveryStampHolds(steps: seq<Step>, g: Guid) returns (i: nat, first: int)
    requires TimesOf(After(steps), g).Some?
    ensures Stamped(steps, g, TimesOf(After(steps), g).value, i, first)
  {
    hide Stamps, Stamped, Answers, TimesOf, CreateValidated, CreateAudited, Shortened, Inv;
    NothingStarts(g);
    var before, step := steps[..|steps| - 1], steps[|steps| - 1];
    var s, t := After(before), TimesOf(After(steps), g).value;
    hide After;
    EveryRunKeepsInv(before);
    Apart(s, g);
    match step
    case CreateValidatedStep(k, allowed, expiry) =>
      ValidationStamps(s, k, allowed, expiry, g);
      if TimesOf(s, g) == Some(t) {
        i, first := EveryStampHolds(before, g);
        StampedStays(steps, g, t, i, first);
      } else {
        NowStamped(steps, g, t);
        i, first := |steps| - 1, t.expiresAt;
      }
    case CreateAuditedStep(k, stored, rendezvous, relay) =>
      IssuingKeepsStamp(s, k, stored, rendezvous, relay, g);
      i, first := EveryStampHolds(before, g);
      StampedStays(steps, g, t, i, first);
    case _ =>
      OtherStepsShorten(s, step);
      ShorteningTimes(s, Next(s, step), step, g);
      i, first := EveryStampHolds(before, g);
      if TimesOf(s, g).value.expiresAt == t.expiresAt {
        StampedStays(steps, g, t, i, first);
      } else {
        NowShortened(steps, g, TimesOf(s, g).value, i, first, t.expiresAt);
      }
  }

  lemma NothingStarts(g: Guid)
    ensures TimesOf(After([]), g).None?
  {
  }

  lemma Apart(s: State, g: Guid)
    requires Inv(s)
    ensures g !in s.sessions || g !in s.creates
  {
  }

  /** A session was validated in some step `i`.  It counts from then, and ended at first after eight hours,
      with its login as the authorization knew it, or with its parent, whatever came first; when it ends
      now is that, or what a later answer for this session said. */
  lemma SessionsEndInTime(steps: seq<Step>, g: Guid) returns (i: nat, first: int)
    requires g in After(steps).sessions
    ensures i < |steps| && steps[i].CreateValidatedStep? && steps[i].g == g && steps[i].allowed
    ensures
      var s, x := After(steps[..i]), After(steps).sessions[g];
      && x.createdAt == s.now
      && (x.parent.Some? ==> x.parent.value in s.sessions)
      && Earliest(first, {s.now + 28_800_000, steps[i].expiry}
           + if x.parent.Some? then {s.sessions[x.parent.value].expiresAt} else {})
      && (x.expiresAt == first || (x.expiresAt < first && AnsweredSince(steps, i, g, x.expiresAt)))
  {
    hide After, Next, Inv, Evolves;
    i, first := EveryStampHolds(steps, g);
    EveryRunKeepsInv(steps[..i]);
    EveryRunKeepsInv(steps);
    EveryRunEvolves(steps, i);
    ParentWasThere(After(steps[..i]), After(steps), g);
  }

  /** The parent of a session was live when the session's request was validated. */
  lemma ParentWasThere(s: State, s': State, g: Guid)
    requires Inv(s) && Inv(s') && Evolves(s, s') && g in s'.sessions && g in s.creates && s.creates[g].step == Validating
    requires s.creates[g].parent == s'.sessions[g].parent
    ensures s'.sessions[g].parent.Some? ==> s'.sessions[g].parent.value in s.sessions
  {
    hide ChannelsInv, QuotaOk, QuietOk, TicketsOk, RelaysOk;
    assert CreateOk(s, s.creates[g]) && ParentOk(s', s'.sessions[g]);
  }

  // ---- where a ticket comes from ----

  /** In the step after `s` the ticket was issued with its session `x`, under the configuration the session
      was requested for, and ends after a minute or with the session. */
  ghost predicate Issued(s: State, step: Step, h: Hash, t: Ticket, x: Session) {
    && step.CreateAuditedStep? && step.stored && t.session == step.g && t.session !in s.sessions
    && x.ticketHashes == {step.rendezvous, step.relay}
    && (if t.phase == Rendezvous then h == step.rendezvous else h == step.relay) && step.rendezvous != step.relay
    && h !in s.issued && Earliest(t.expiresAt, {s.now + 60_000, x.expiresAt})
    && s.now < x.expiresAt && x.profile == s.profile && x.epoch == s.epoch && !s.stopped && s.overdue == {}
    && !x.active && x.relay.None? && x.sockets == {}
  }

  lemma IssuingTickets(s: State, g: Guid, stored: bool, rendezvous: Hash, relay: Hash, h: Hash)
    requires GuidsOk(s)
    requires
      var s' := CreateAudited(s, g, stored, rendezvous, relay);
      h in s'.tickets && (h !in s.tickets || s'.tickets[h] != s.tickets[h])
    ensures
      var s' := CreateAudited(s, g, stored, rendezvous, relay);
      && s'.tickets[h].session in s'.sessions
      && Issued(s, CreateAuditedStep(g, stored, rendezvous, relay), h, s'.tickets[h], s'.sessions[s'.tickets[h].session])
  {
  }

  lemma ValidationKeepsTickets(s: State, g: Guid, allowed: bool, expiry: int)
    ensures CreateValidated(s, g, allowed, expiry).tickets == s.tickets
  {
  }

  /** Every ticket was issued in some step `j` for a session that appeared with it. */
  lemma {:induction false} TicketsEndInTime(steps: seq<Step>, h: Hash) returns (j: nat)
    requires h in After(steps).tickets
    ensures
      var t := After(steps).tickets[h];
      && j < |steps| && t.session in After(steps[..j + 1]).sessions
      && Issued(After(steps[..j]), steps[j], h, t, After(steps[..j + 1]).sessions[t.session])
  {
    hide Issued, Next, Inv;
    NoTicketAtStart();
    var before, step := steps[..|steps| - 1], steps[|steps| - 1];
    var s := After(before);
    assert steps[..|steps|] == steps;
    EveryRunKeepsInv(before);
    TicketsAreKeptOrIssued(s, step, h);
    if h in s.tickets && s.tickets[h] == After(steps).tickets[h] {
      j := TicketsEndInTime(before, h);
      assert before[..j] == steps[..j] && before[..j + 1] == steps[..j + 1];
    } else {
      j := |steps| - 1;
    }
  }

  lemma TicketsAreKeptOrIssued(s: State, step: Step, h: Hash)
    requires Inv(s) && h in Next(s, step).tickets
    ensures
      var s' := Next(s, step);
      var t := s'.tickets[h];
      (h in s.tickets && s.tickets[h] == t) || (t.session in s'.sessions && Issued(s, step, h, t, s'.sessions[t.session]))
  {
    hide Issued, Answers, Shortened, Inv, GuidsOk, Next, CreateValidated, CreateAudited;
    InvHasGuids(s);
    if step.CreateAuditedStep? {
      StampingSteps(s, step);
      if h !in s.tickets || Next(s, step).tickets[h] != s.tickets[h] {
        IssuingTickets(s, step.g, step.stored, step.rendezvous, step.relay, h);
      }
    } else if step.CreateValidatedStep? {
      StampingSteps(s, step);
      ValidationKeepsTickets(s, step.g, step.allowed, step.expiry);
    } else {
      OtherStepsShorten(s, step);
      ShortenedKeepsTickets(s, Next(s, step), step, h);
    }
  }

  lemma StampingSteps(s: State, step: Step)
    ensures step.CreateValidatedStep? ==> Next(s, step) == CreateValidated(s, step.g, step.allowed, step.expiry)
    ensures step.CreateAuditedStep? ==> Next(s, step) == CreateAudited(s, step.g, step.stored, step.rendezvous, step.relay)
  {
  }

  lemma ShortenedKeepsTickets(s: State, s': State, step: Step, h: Hash)
    requires Shortened(s, s', step) && h in s'.tickets
    ensures h in s.tickets && s'.tickets[h] == s.tickets[h]
  {
  }

  lemma NoTicketAtStart()
    ensures After([]).tickets == map[]
  {
  }
}
