/** Nothing stands in the way of a session that is allowed: from its request to the traffic on its relay. */
module WebClientProgress {
  import opened WebClientState
  import opened WebClientInvariant
  import opened WebClientCreation
  import opened WebClientRuns
  import opened WebClientTimes
  import opened Wrappers

  /** The state after some more steps. */
  function Run(s: State, steps: seq<Step>): State
    decreases |steps|
  {
    if steps == [] then s else Run(Next(s, steps[0]), steps[1..])
  }

  /** Two runs one after the other, as a sequence of their steps. */
  lemma RunTwo(s0: State, s1: State, s2: State, step: Step, more: seq<Step>)
    requires Next(s0, step) == s1 && Run(s1, more) == s2
    ensures Run(s0, [step] + more) == s2
  {
    hide Next;
    assert ([step] + more)[1..] == more;
  }

  lemma RunLast(s: State, step: Step)
    ensures Run(s, [step]) == Next(s, step)
  {
    hide Next;
    assert [step][1..] == [];
  }

  lemma {:induction false} RunOn(s: State, first: seq<Step>, more: seq<Step>)
    ensures Run(s, first + more) == Run(Run(s, first), more)
    decreases |first|
  {
    hide Next;
    if first == [] {
      assert first + more == more;
    } else {
      RunOn(Next(s, first[0]), first[1..], more);
      assert (first + more)[1..] == first[1..] + more;
    }
  }

  lemma {:induction false} RunIsAfter(steps: seq<Step>, more: seq<Step>)
    ensures After(steps + more) == Run(After(steps), more)
    decreases |more|
  {
    hide Next;
    if more == [] {
      assert steps + more == steps;
    } else {
      var before, last := more[..|more| - 1], more[|more| - 1];
      RunIsAfter(steps, before);
      assert (steps + more)[..|steps + more| - 1] == steps + before && before + [last] == more;
      RunOn(After(steps), before, [last]);
      RunLast(Run(After(steps), before), last);
    }
  }

  /** The session may be used, and an authorization until `e` does not shorten it. */
  predicate Ready(s: State, g: Guid, e: int) {
    && g in s.sessions && !s.stopped && !s.destroyed
    && var x := s.sessions[g];
       && s.now < x.expiresAt <= e && (x.active || s.now < x.createdAt + 120_000) && x.profile == s.profile
       && (x.parent.Some? ==>
             x.parent.value in s.sessions
             && var p := s.sessions[x.parent.value]; s.now < p.expiresAt && p.active && p.actor == x.actor)
  }

  lemma ReadyPasses(s: State, g: Guid, e: int)
    requires Ready(s, g, e)
    ensures Recheck(s, g, true, e) == (s, true) && Current(s, g)
  {
    assert s.sessions[g := s.sessions[g]] == s.sessions;
    hide CloseGrant;
  }

  lemma CheckPasses(s: State, c: ChannelId, g: Guid, e: int)
    requires Ready(s, g, e) && c in s.channels && s.channels[c].task.Checking?
    requires CheckedSession(s.channels[c], s.channels[c].task.check) == Some(g)
    ensures Next(s, CheckStep(c, true, e)) == SetChannel(s, c, s.channels[c].(task := Passed(s.channels[c].task.check)))
  {
    hide Ready, Recheck, CheckedSession;
    ReadyPasses(s, g, e);
  }

  // ---- a ticket attaches a channel ----

  function AttachedChannel(claim: Claim): Channel {
    Channel(AwaitingRequest, false, Some(claim), false, Idle, Payload, [], 0)
  }

  /** The ticket is spent and channel `c` is one of its session's. */
  function WithChannel(s: State, g: Guid, h: Hash, c: ChannelId): State
    requires g in s.sessions && h in s.tickets
  {
    var x := s.sessions[g];
    s.(tickets := s.tickets - {h}, redeemed := s.redeemed + {h},
       sessions := s.sessions[g := x.(sockets := x.sockets + {c})],
       channels := s.channels[c := AttachedChannel(Claim(g, s.tickets[h].phase, x.relay, h))])
  }

  function AttachSteps(c: ChannelId, h: Hash, e: int): seq<Step> {
    [ConnectStep(c)] + ([TicketStep(c, h)] + [CheckStep(c, true, e), ProceedStep(c), AuthorizeStep(c)])
  }

  /** In time, the ticket of a session that may be used attaches a new channel to it. */
  lemma TicketAttaches(s: State, g: Guid, h: Hash, c: ChannelId, e: int)
    requires Ready(s, g, e) && |s.sessions[g].sockets| < 2
    requires h in s.tickets && s.tickets[h].session == g && s.now < s.tickets[h].expiresAt && c !in s.channels
    requires s.tickets[h].phase == Relay ==> s.sessions[g].relay.Some?
    ensures Run(s, AttachSteps(c, h, e)) == WithChannel(s, g, h, c)
  {
    hide Run, Next, Ready, WithChannel, Redeeming;
    var last := [CheckStep(c, true, e), ProceedStep(c), AuthorizeStep(c)];
    ReadyIsLive(s, g, e);
    Connects(s, c);
    Redeems(s, g, h, c, e);
    RedeemedAttaches(s, g, h, c, e);
    var s2 := s.(channels := s.channels[c := FRESH_CHANNEL]);
    var s3 := Redeeming(s, h, c, Checking(TicketCheck(g, s.tickets[h].phase, h)));
    var s6 := WithChannel(s, g, h, c);
    RunTwo(s2, s3, s6, TicketStep(c, h), last);
    RunTwo(s, s2, s6, ConnectStep(c), [TicketStep(c, h)] + last);
  }

  lemma ReadyIsLive(s: State, g: Guid, e: int)
    requires Ready(s, g, e)
    ensures g in s.sessions && !s.destroyed
  {
  }

  lemma RedeemedAttaches(s: State, g: Guid, h: Hash, c: ChannelId, e: int)
    requires Ready(s, g, e) && h in s.tickets && s.tickets[h].session == g && |s.sessions[g].sockets| < 2
    ensures
      Run(Redeeming(s, h, c, Checking(TicketCheck(g, s.tickets[h].phase, h))), [CheckStep(c, true, e), ProceedStep(c), AuthorizeStep(c)])
        == WithChannel(s, g, h, c)
  {
    hide Run, Next, WithChannel, SetChannel, Redeeming;
    ReadyIsLive(s, g, e);
    hide Ready;
    var check := TicketCheck(g, s.tickets[h].phase, h);
    var claim := Claim(g, s.tickets[h].phase, s.sessions[g].relay, h);
    var s3, s4, s5 := Redeeming(s, h, c, Checking(check)), Redeeming(s, h, c, Passed(check)), Redeeming(s, h, c, Claimed(claim));
    RedeemingIs(s, g, h, c, Checking(check), e);
    RedeemingIs(s, g, h, c, Passed(check), e);
    CheckPasses(s3, c, g, e);
    Claims(s4, c, g, e, check);
    RedeemingGoesOn(s, h, c, Checking(check), Passed(check));
    RedeemingGoesOn(s, h, c, Passed(check), Claimed(claim));
    AttachesAt(s, h, c, g, e, claim);
    var s6 := WithChannel(s, g, h, c);
    RunLast(s5, AuthorizeStep(c));
    RunTwo(s4, s5, s6, ProceedStep(c), [AuthorizeStep(c)]);
    RunTwo(s3, s4, s6, CheckStep(c, true, e), [ProceedStep(c)] + [AuthorizeStep(c)]);
    assert [CheckStep(c, true, e), ProceedStep(c), AuthorizeStep(c)] == [CheckStep(c, true, e)] + ([ProceedStep(c)] + [AuthorizeStep(c)]);
  }

  /** Channel `c` has spent the ticket and waits in `task`. */
  function Redeeming(s: State, h: Hash, c: ChannelId, task: Task): State {
    s.(tickets := s.tickets - {h}, redeemed := s.redeemed + {h},
       channels := s.channels[c := FRESH_CHANNEL.(stage := Authorizing, task := task)])
  }

  lemma RedeemingIs(s: State, g: Guid, h: Hash, c: ChannelId, task: Task, e: int)
    requires Ready(s, g, e)
    ensures
      var s' := Redeeming(s, h, c, task);
      && Ready(s', g, e) && s'.sessions == s.sessions
      && c in s'.channels && s'.channels[c] == FRESH_CHANNEL.(stage := Authorizing, task := task)
  {
  }

  lemma RedeemingGoesOn(s: State, h: Hash, c: ChannelId, task: Task, next: Task)
    ensures
      var s' := Redeeming(s, h, c, task);
      SetChannel(s', c, FRESH_CHANNEL.(stage := Authorizing, task := next)) == Redeeming(s, h, c, next)
  {
    Overwritten(s.channels, c, FRESH_CHANNEL.(stage := Authorizing, task := task), FRESH_CHANNEL.(stage := Authorizing, task := next));
  }

  lemma Overwritten<K, V>(m: map<K, V>, k: K, a: V, b: V)
    ensures m[k := a][k := b] == m[k := b]
  {
  }

  lemma Connects(s: State, c: ChannelId)
    requires c !in s.channels && !s.destroyed
    ensures Next(s, ConnectStep(c)) == s.(channels := s.channels[c := FRESH_CHANNEL])
  {
  }

  lemma Redeems(s: State, g: Guid, h: Hash, c: ChannelId, e: int)
    requires Ready(s, g, e) && h in s.tickets && s.tickets[h].session == g && s.now < s.tickets[h].expiresAt
    requires s.tickets[h].phase == Relay ==> s.sessions[g].relay.Some?
    ensures
      Next(s.(channels := s.channels[c := FRESH_CHANNEL]), TicketStep(c, h)) ==
        Redeeming(s, h, c, Checking(TicketCheck(g, s.tickets[h].phase, h)))
  {
    ReadyPasses(s, g, e);
    hide Recheck, Ready;
    var task := Checking(TicketCheck(g, s.tickets[h].phase, h));
    Overwritten(s.channels, c, FRESH_CHANNEL, FRESH_CHANNEL.(stage := Authorizing, task := task));
  }

  lemma Claims(s: State, c: ChannelId, g: Guid, e: int, check: Check)
    requires Ready(s, g, e) && c in s.channels && s.channels[c].task == Passed(check) && check.TicketCheck? && check.session == g
    ensures Next(s, ProceedStep(c)) ==
      SetChannel(s, c, s.channels[c].(task := Claimed(Claim(g, check.phase, s.sessions[g].relay, check.ticket))))
  {
    ReadyPasses(s, g, e);
    hide Ready, Recheck;
  }

  lemma AttachesAt(s: State, h: Hash, c: ChannelId, g: Guid, e: int, claim: Claim)
    requires Ready(s, g, e) && h in s.tickets && s.tickets[h].session == g && |s.sessions[g].sockets| < 2
    requires claim == Claim(g, s.tickets[h].phase, s.sessions[g].relay, h)
    ensures Next(Redeeming(s, h, c, Claimed(claim)), AuthorizeStep(c)) == WithChannel(s, g, h, c)
  {
    var s5 := Redeeming(s, h, c, Claimed(claim));
    var ch := FRESH_CHANNEL.(stage := Authorizing, claim := Some(claim));
    var s' := SetChannel(s5, c, ch);
    ReadyPasses(s', g, e);
    hide Ready, Recheck, Stop, CloseGrant;
    Overwritten(s.channels, c, s5.channels[c], ch);
    Overwritten(s.channels, c, ch, AttachedChannel(claim));
  }

  // ---- one channel goes on ----

  /** Channel `c` goes on to `ch`, and nothing else is different. */
  lemma GoesOn(s: State, c: ChannelId, ch: Channel, ch': Channel, g: Guid, e: int)
    requires Ready(s, g, e)
    ensures SetChannel(SetChannel(s, c, ch), c, ch') == SetChannel(s, c, ch')
    ensures
      var s' := SetChannel(s, c, ch);
      Ready(s', g, e) && s'.sessions == s.sessions && c in s'.channels && s'.channels[c] == ch
  {
    Overwritten(s.channels, c, ch, ch');
  }

  /** A check of the channel's session that passes, and what the gateway does next. */
  lemma ChecksAndProceeds(s: State, c: ChannelId, ch: Channel, check: Check, g: Guid, e: int, next: Task, more: seq<Step>, s': State)
    requires Ready(s, g, e) && ch.claim.Some? && ch.claim.value.session == g && ch.task == Checking(check) && !check.TicketCheck?
    requires next == if check == OpenCheck then Connecting else AuditingRelay
    requires check == OpenCheck ==> !ch.stopped
    requires check == RelayCheck ==> !s.sessions[g].active && s.sessions[g].relay.Some?
    requires Run(SetChannel(s, c, ch.(task := next)), more) == s'
    ensures Run(SetChannel(s, c, ch), [CheckStep(c, true, e)] + ([ProceedStep(c)] + more)) == s'
  {
    hide Run, Next, SetChannel, Ready;
    var passed := ch.(task := Passed(check));
    GoesOn(s, c, ch, passed, g, e);
    GoesOn(s, c, passed, ch.(task := next), g, e);
    CheckPasses(SetChannel(s, c, ch), c, g, e);
    ProceedsTo(SetChannel(s, c, passed), c, check, g, e, next);
    RunTwo(SetChannel(s, c, passed), SetChannel(s, c, ch.(task := next)), s', ProceedStep(c), more);
    RunTwo(SetChannel(s, c, ch), SetChannel(s, c, passed), s', CheckStep(c, true, e), [ProceedStep(c)] + more);
  }

  lemma ProceedsTo(s: State, c: ChannelId, check: Check, g: Guid, e: int, next: Task)
    requires Ready(s, g, e) && c in s.channels && s.channels[c].task == Passed(check) && !check.TicketCheck?
    requires s.channels[c].claim.Some? && s.channels[c].claim.value.session == g
    requires next == if check == OpenCheck then Connecting else AuditingRelay
    requires check == OpenCheck ==> !s.channels[c].stopped
    requires check == RelayCheck ==> !s.sessions[g].active && s.sessions[g].relay.Some?
    ensures Next(s, ProceedStep(c)) == SetChannel(s, c, s.channels[c].(task := next))
  {
  }

  function OpeningChannel(claim: Claim, request: Frame, task: Task): Channel {
    Channel(Opening, false, Some(claim), false, task, request, [], 0)
  }

  lemma RequestOpens(s: State, c: ChannelId, claim: Claim, request: Frame)
    requires c in s.channels && s.channels[c] == AttachedChannel(claim)
    requires request.Request? && (claim.phase == Relay ==> request.relay == claim.relay)
    ensures Next(s, RequestStep(c, request)) == SetChannel(s, c, OpeningChannel(claim, request, Checking(OpenCheck)))
  {
    hide Stop;
  }

  // ---- the rendezvous ----

  function RepliedChannel(claim: Claim, request: Frame): Channel {
    Channel(AwaitingReply, false, Some(claim), true, Idle, request, [request], 1)
  }

  /** The relay of session `g` is bound by the reply on channel `c`. */
  function WithRelay(s: State, g: Guid, uuid: Uuid, c: ChannelId, claim: Claim, request: Frame): State
    requires g in s.sessions
  {
    s.(sessions := s.sessions[g := s.sessions[g].(relay := Some(uuid))],
       bound := s.bound[g := uuid], boundBy := s.boundBy[g := c],
       channels := s.channels[c := RepliedChannel(claim, request)])
  }

  function RendezvousSteps(c: ChannelId, request: Frame, uuid: Uuid, e: int): seq<Step> {
    [RequestStep(c, request)] + ([CheckStep(c, true, e)] + ([ProceedStep(c)]
      + ([ConnectedStep(c, true)] + [UpstreamStep(c, Some(uuid), true, true)])))
  }

  /** A rendezvous forwards the request and the reply, and binds the relay. */
  lemma RendezvousBinds(s: State, g: Guid, c: ChannelId, claim: Claim, request: Frame, uuid: Uuid, e: int)
    requires Ready(s, g, e) && s.sessions[g].relay.None? && request.Request?
    requires forall h :: h in s.sessions ==> s.sessions[h].relay != Some(uuid)
    requires c in s.channels && s.channels[c] == AttachedChannel(claim) && claim.session == g && claim.phase == Rendezvous
    ensures Run(s, RendezvousSteps(c, request, uuid, e)) == WithRelay(s, g, uuid, c, claim, request)
  {
    hide Run, Next, SetChannel, Ready, WithRelay;
    ReadyIsLive(s, g, e);
    var asked, waiting := OpeningChannel(claim, request, Checking(OpenCheck)), OpeningChannel(claim, request, Connecting);
    var sent := waiting.(stage := AwaitingReply, task := Idle, up := [request]);
    var s1, s3, s4, s' := SetChannel(s, c, asked), SetChannel(s, c, waiting), SetChannel(s, c, sent),
      WithRelay(s, g, uuid, c, claim, request);
    RequestOpens(s, c, claim, request);
    GoesOn(s, c, waiting, sent, g, e);
    RequestIsSent(s3, c, claim, request);
    ReplyBinds(s, g, c, claim, request, uuid, e);
    var reply := [UpstreamStep(c, Some(uuid), true, true)];
    RunLast(s4, reply[0]);
    RunTwo(s3, s4, s', ConnectedStep(c, true), reply);
    ChecksAndProceeds(s, c, asked, OpenCheck, g, e, Connecting, [ConnectedStep(c, true)] + reply, s');
    RunTwo(s, s1, s', RequestStep(c, request), [CheckStep(c, true, e)] + ([ProceedStep(c)] + ([ConnectedStep(c, true)] + reply)));
  }

  lemma RequestIsSent(s: State, c: ChannelId, claim: Claim, request: Frame)
    requires c in s.channels && s.channels[c] == OpeningChannel(claim, request, Connecting) && claim.phase == Rendezvous && !s.destroyed
    ensures Next(s, ConnectedStep(c, true)) ==
      SetChannel(s, c, Channel(AwaitingReply, false, Some(claim), false, Idle, request, [request], 0))
  {
    Overwritten(s.channels, c, Channel(AwaitingReply, false, Some(claim), false, Idle, request, [], 0),
                Channel(AwaitingReply, false, Some(claim), false, Idle, request, [request], 0));
    assert [] + [request] == [request];
  }

  lemma ReplyBinds(s: State, g: Guid, c: ChannelId, claim: Claim, request: Frame, uuid: Uuid, e: int)
    requires Ready(s, g, e) && s.sessions[g].relay.None? && claim.session == g
    requires forall h :: h in s.sessions ==> s.sessions[h].relay != Some(uuid)
    ensures
      var waiting := Channel(AwaitingReply, false, Some(claim), false, Idle, request, [request], 0);
      Next(SetChannel(s, c, waiting), UpstreamStep(c, Some(uuid), true, true)) == WithRelay(s, g, uuid, c, claim, request)
  {
    var waiting := Channel(AwaitingReply, false, Some(claim), false, Idle, request, [request], 0);
    var replied := waiting.(replied := true);
    ReadyPasses(SetChannel(s, c, waiting), g, e);
    hide Ready, Recheck, Stop;
    Overwritten(s.channels, c, waiting, replied);
    Overwritten(s.channels, c, replied, RepliedChannel(claim, request));
  }

  // ---- the relay ----

  function RelayedChannel(claim: Claim, request: Frame): Channel {
    Channel(Opaque, false, Some(claim), false, Idle, request, [request, Payload], 1)
  }

  /** Session `g` is open for good: its opening is audited, and channel `d` carries traffic both ways. */
  function WithTraffic(s: State, g: Guid, d: ChannelId, claim: Claim): State
    requires g in s.sessions
  {
    s.(sessions := s.sessions[g := s.sessions[g].(active := true)], audited := s.audited + {g},
       channels := s.channels[d := RelayedChannel(claim, Request(claim.relay))])
  }

  function TrafficSteps(d: ChannelId): seq<Step> {
    [RelayOpenedStep(d, true)] + ([PayloadStep(d, true)] + [UpstreamStep(d, None, true, true)])
  }

  function RelaySteps(d: ChannelId, relay: Option<Uuid>, e: int): seq<Step> {
    [RequestStep(d, Request(relay))] + ([CheckStep(d, true, e)] + ([ProceedStep(d)] + ([ConnectedStep(d, true)]
      + ([CheckStep(d, true, e)] + ([ProceedStep(d)] + ([RelayAuditedStep(d, true)] + TrafficSteps(d)))))))
  }

  /** A relay channel is opened once its opening is audited, and carries frames both ways from then on. */
  lemma RelayCarries(s: State, g: Guid, d: ChannelId, claim: Claim, e: int)
    requires Ready(s, g, e) && !s.sessions[g].active && s.sessions[g].relay.Some?
    requires d in s.channels && s.channels[d] == AttachedChannel(claim) && claim.session == g && claim.phase == Relay
    ensures Run(s, RelaySteps(d, claim.relay, e)) == WithTraffic(s, g, d, claim)
  {
    hide Run, Next, SetChannel, Ready, WithTraffic, TrafficSteps;
    ReadyIsLive(s, g, e);
    var request := Request(claim.relay);
    var asked, waiting := OpeningChannel(claim, request, Checking(OpenCheck)), OpeningChannel(claim, request, Connecting);
    var again, auditing := OpeningChannel(claim, request, Checking(RelayCheck)), OpeningChannel(claim, request, AuditingRelay);
    var s1, s3, s4, s6, s' :=
      SetChannel(s, d, asked), SetChannel(s, d, waiting), SetChannel(s, d, again), SetChannel(s, d, auditing),
      WithTraffic(s, g, d, claim);
    var more := [RelayAuditedStep(d, true)] + TrafficSteps(d);
    RequestOpens(s, d, claim, request);
    GoesOn(s, d, waiting, again, g, e);
    RelayIsCheckedAgain(s3, d, claim, request, g, e);
    RelayOpens(s, g, d, claim, e);
    ChecksAndProceeds(s, d, again, RelayCheck, g, e, AuditingRelay, more, s');
    var second := [CheckStep(d, true, e)] + ([ProceedStep(d)] + more);
    RunTwo(s3, s4, s', ConnectedStep(d, true), second);
    ChecksAndProceeds(s, d, asked, OpenCheck, g, e, Connecting, [ConnectedStep(d, true)] + second, s');
    RunTwo(s, s1, s', RequestStep(d, request), [CheckStep(d, true, e)] + ([ProceedStep(d)] + ([ConnectedStep(d, true)] + second)));
  }

  lemma RelayIsCheckedAgain(s: State, d: ChannelId, claim: Claim, request: Frame, g: Guid, e: int)
    requires Ready(s, g, e) && claim.session == g && claim.phase == Relay
    requires d in s.channels && s.channels[d] == OpeningChannel(claim, request, Connecting)
    ensures Next(s, ConnectedStep(d, true)) == SetChannel(s, d, OpeningChannel(claim, request, Checking(RelayCheck)))
  {
    ReadyPasses(s, g, e);
    hide Recheck, Current;
  }

  lemma RelayOpens(s: State, g: Guid, d: ChannelId, claim: Claim, e: int)
    requires Ready(s, g, e) && claim.session == g
    ensures
      Run(SetChannel(s, d, OpeningChannel(claim, Request(claim.relay), AuditingRelay)), [RelayAuditedStep(d, true)] + TrafficSteps(d))
        == WithTraffic(s, g, d, claim)
  {
    hide Run, Next, Ready, WithTraffic;
    ReadyIsLive(s, g, e);
    var request := Request(claim.relay);
    var s0 := SetChannel(s, d, OpeningChannel(claim, request, AuditingRelay));
    var s1, s2, s3, s4 := Opened(s, g, d, OpeningChannel(claim, request, RelayMarked)),
      Opened(s, g, d, Channel(Opaque, false, Some(claim), false, Idle, request, [request], 0)),
      Opened(s, g, d, Channel(Opaque, false, Some(claim), false, Idle, request, [request, Payload], 0)), WithTraffic(s, g, d, claim);
    AuditMarks(s, g, d, claim, e);
    TrafficFlows(s, g, d, claim);
    RunLast(s3, UpstreamStep(d, None, true, true));
    RunTwo(s2, s3, s4, PayloadStep(d, true), [UpstreamStep(d, None, true, true)]);
    RunTwo(s1, s2, s4, RelayOpenedStep(d, true), [PayloadStep(d, true)] + [UpstreamStep(d, None, true, true)]);
    RunTwo(s0, s1, s4, RelayAuditedStep(d, true), TrafficSteps(d));
  }

  function Opened(s: State, g: Guid, d: ChannelId, ch: Channel): State
    requires g in s.sessions
  {
    s.(sessions := s.sessions[g := s.sessions[g].(active := true)], audited := s.audited + {g}, channels := s.channels[d := ch])
  }

  lemma AuditMarks(s: State, g: Guid, d: ChannelId, claim: Claim, e: int)
    requires Ready(s, g, e) && claim.session == g
    ensures
      Next(SetChannel(s, d, OpeningChannel(claim, Request(claim.relay), AuditingRelay)), RelayAuditedStep(d, true))
        == Opened(s, g, d, OpeningChannel(claim, Request(claim.relay), RelayMarked))
  {
    var ch := OpeningChannel(claim, Request(claim.relay), AuditingRelay);
    ReadyPasses(SetChannel(s, d, ch), g, e);
    hide Ready, Recheck, CloseGrant;
    Overwritten(s.channels, d, ch, ch.(task := RelayMarked));
  }

  lemma TrafficFlows(s: State, g: Guid, d: ChannelId, claim: Claim)
    requires g in s.sessions && !s.destroyed
    ensures
      var request := Request(claim.relay);
      var open := Channel(Opaque, false, Some(claim), false, Idle, request, [request], 0);
      var s1, s2, s3 := Opened(s, g, d, OpeningChannel(claim, request, RelayMarked)), Opened(s, g, d, open),
        Opened(s, g, d, open.(up := [request, Payload]));
      && Next(s1, RelayOpenedStep(d, true)) == s2 && Next(s2, PayloadStep(d, true)) == s3
      && Next(s3, UpstreamStep(d, None, true, true)) == WithTraffic(s, g, d, claim)
  {
    hide Next, Opened, SetChannel;
    var request := Request(claim.relay);
    var marked := OpeningChannel(claim, request, RelayMarked);
    var open := Channel(Opaque, false, Some(claim), false, Idle, request, [request], 0);
    var busy := open.(up := [request, Payload]);
    OpenedGoesOn(s, g, d, marked, open);
    OpenedGoesOn(s, g, d, open, busy);
    OpenedGoesOn(s, g, d, busy, RelayedChannel(claim, request));
    OpeningIsSent(Opened(s, g, d, marked), d, claim, request);
    PayloadsFlow(Opened(s, g, d, open), d, open);
    PayloadsFlow(Opened(s, g, d, busy), d, busy);
    assert [request] + [Payload] == [request, Payload];
    TrafficIs(s, g, d, claim);
  }

  lemma TrafficIs(s: State, g: Guid, d: ChannelId, claim: Claim)
    requires g in s.sessions
    ensures WithTraffic(s, g, d, claim) == Opened(s, g, d, RelayedChannel(claim, Request(claim.relay)))
  {
  }

  lemma OpenedGoesOn(s: State, g: Guid, d: ChannelId, ch: Channel, ch': Channel)
    requires g in s.sessions
    ensures SetChannel(Opened(s, g, d, ch), d, ch') == Opened(s, g, d, ch')
    ensures var s' := Opened(s, g, d, ch); d in s'.channels && s'.channels[d] == ch && s'.destroyed == s.destroyed
  {
    Overwritten(s.channels, d, ch, ch');
  }

  lemma OpeningIsSent(s: State, d: ChannelId, claim: Claim, request: Frame)
    requires d in s.channels && s.channels[d] == OpeningChannel(claim, request, RelayMarked) && !s.destroyed
    ensures Next(s, RelayOpenedStep(d, true)) ==
      SetChannel(s, d, Channel(Opaque, false, Some(claim), false, Idle, request, [request], 0))
  {
    Overwritten(s.channels, d, Channel(Opaque, false, Some(claim), false, Idle, request, [], 0),
                Channel(Opaque, false, Some(claim), false, Idle, request, [request], 0));
    assert [] + [request] == [request];
  }

  /** Once a relay channel is open, frames flow either way. */
  lemma PayloadsFlow(s: State, d: ChannelId, ch: Channel)
    requires d in s.channels && s.channels[d] == ch && ch.stage == Opaque && !ch.stopped
    ensures Next(s, PayloadStep(d, true)) == SetChannel(s, d, ch.(up := ch.up + [Payload]))
    ensures Next(s, UpstreamStep(d, None, true, true)) == SetChannel(s, d, ch.(down := ch.down + 1))
  {
  }

  // ---- the request ----

  /** A request `g` that meets every condition, for a login that lasts until `e`: there is room for it, and a
      file session is asked for below an open desktop session of the same login and target. */
  predicate MayAsk(s: State, g: Guid, actor: Actor, target: nat, kind: Kind, parent: Option<Guid>, e: int) {
    && g !in s.used && g !in s.creates && !s.stopped && !s.destroyed && s.overdue == {} && s.now < e
    && |s.sessions| + |s.creates| < 256 && |SessionsOf(s, actor.id)| + |CreatesOf(s, actor.id)| < 8
    && match kind
       case Desktop => parent.None?
       case File =>
         && parent.Some? && Ready(s, parent.value, e)
         && var p := s.sessions[parent.value]; p.active && p.kind == Desktop && p.actor == actor && p.target == target
  }

  function RequestSteps(g: Guid, actor: Actor, target: nat, kind: Kind, parent: Option<Guid>, e: int, r: Hash, l: Hash): seq<Step> {
    [BeginCreateStep(g, actor, target, kind, parent)]
      + if kind == File then [ParentCheckedStep(g, true, e)] + IssueSteps(g, e, r, l) else IssueSteps(g, e, r, l)
  }

  function IssueSteps(g: Guid, e: int, r: Hash, l: Hash): seq<Step> {
    [CreateValidatedStep(g, true, e)] + [CreateAuditedStep(g, true, r, l)]
  }

  function NewSession(s: State, actor: Actor, target: nat, kind: Kind, parent: Option<Guid>, end: int, r: Hash, l: Hash): Session {
    Session(actor, target, kind, parent, s.now, end, s.profile, s.epoch, None, false, {r, l}, {})
  }

  /** Session `x` and its two tickets are new, and nothing else is different. */
  function WithSession(s: State, g: Guid, x: Session, r: Hash, l: Hash, lifetime: int): State {
    s.(used := s.used + {g}, sessions := s.sessions[g := x], issued := s.issued + {r, l},
       tickets := s.tickets[r := Ticket(g, Rendezvous, lifetime)][l := Ticket(g, Relay, lifetime)])
  }

  function Requested(s: State, g: Guid, x: Create): State {
    s.(used := s.used + {g}, creates := s.creates[g := x])
  }

  /** An allowed request becomes a session that ends with the first of eight hours, its login and its parent. */
  lemma RequestIsIssued(s: State, g: Guid, actor: Actor, target: nat, kind: Kind, parent: Option<Guid>, e: int, r: Hash, l: Hash)
    returns (end: int, lifetime: int)
    requires MayAsk(s, g, actor, target, kind, parent, e) && r !in s.issued && l !in s.issued && r != l
    ensures Earliest(end, {s.now + 28_800_000, e} + ParentEnd(s, parent)) && Earliest(lifetime, {s.now + 60_000, end}) && s.now < end
    ensures
      Run(s, RequestSteps(g, actor, target, kind, parent, e, r, l))
        == WithSession(s, g, NewSession(s, actor, target, kind, parent, end, r, l), r, l, lifetime)
  {
    hide Run, Next, MayAsk, Requested, WithSession, NewSession, Earliest, ParentEnd;
    end := EndOf(s, g, actor, target, kind, parent, e);
    lifetime := if s.now + 60_000 < end then s.now + 60_000 else end;
    LifetimeIs(s.now, end, lifetime);
    var x := Create(actor, target, kind, parent, s.profile, s.epoch, Validating);
    var y := x.(step := CheckingParent);
    var z := x.(step := Auditing(s.now, end));
    var s2, s3 := Requested(s, g, x), Requested(s, g, z);
    var s4 := WithSession(s, g, NewSession(s, actor, target, kind, parent, end, r, l), r, l, lifetime);
    RequestBegins(s, g, actor, target, kind, parent, e);
    RequestIsStamped(s, g, actor, target, kind, parent, e, end);
    StampIsIssued(s, g, actor, target, kind, parent, e, end, r, l, lifetime);
    RunLast(s3, CreateAuditedStep(g, true, r, l));
    RunTwo(s2, s3, s4, CreateValidatedStep(g, true, e), [CreateAuditedStep(g, true, r, l)]);
    if kind == File {
      ParentAgrees(s, g, actor, target, parent, e);
      RunTwo(Requested(s, g, y), s2, s4, ParentCheckedStep(g, true, e), IssueSteps(g, e, r, l));
      RunTwo(s, Requested(s, g, y), s4, BeginCreateStep(g, actor, target, kind, parent),
             [ParentCheckedStep(g, true, e)] + IssueSteps(g, e, r, l));
    } else {
      RunTwo(s, s2, s4, BeginCreateStep(g, actor, target, kind, parent), IssueSteps(g, e, r, l));
    }
  }

  lemma LifetimeIs(now: int, end: int, lifetime: int)
    requires lifetime == if now + 60_000 < end then now + 60_000 else end
    ensures Earliest(lifetime, {now + 60_000, end})
  {
  }

  lemma EndOf(s: State, g: Guid, actor: Actor, target: nat, kind: Kind, parent: Option<Guid>, e: int) returns (end: int)
    requires MayAsk(s, g, actor, target, kind, parent, e)
    ensures Earliest(end, {s.now + 28_800_000, e} + ParentEnd(s, parent)) && s.now < end
    ensures parent.Some? ==> parent.value in s.sessions && end <= s.sessions[parent.value].expiresAt
  {
    end := if s.now + 28_800_000 < e then s.now + 28_800_000 else e;
    if parent.Some? && s.sessions[parent.value].expiresAt < end {
      end := s.sessions[parent.value].expiresAt;
    }
  }

  lemma RequestBegins(s: State, g: Guid, actor: Actor, target: nat, kind: Kind, parent: Option<Guid>, e: int)
    requires MayAsk(s, g, actor, target, kind, parent, e)
    ensures
      Next(s, BeginCreateStep(g, actor, target, kind, parent)) ==
        Requested(s, g, Create(actor, target, kind, parent, s.profile, s.epoch, if kind == File then CheckingParent else Validating))
  {
    if kind == File {
      ReadyPasses(s, parent.value, e);
    }
    hide Ready, Recheck, SessionsOf, CreatesOf;
  }

  lemma ParentAgrees(s: State, g: Guid, actor: Actor, target: nat, parent: Option<Guid>, e: int)
    requires MayAsk(s, g, actor, target, File, parent, e)
    ensures
      var x := Create(actor, target, File, parent, s.profile, s.epoch, Validating);
      Next(Requested(s, g, x.(step := CheckingParent)), ParentCheckedStep(g, true, e)) == Requested(s, g, x)
  {
    var x := Create(actor, target, File, parent, s.profile, s.epoch, Validating);
    var s1 := Requested(s, g, x.(step := CheckingParent));
    ReadyPasses(s1, parent.value, e);
    hide Ready, Recheck;
    Overwritten(s.creates, g, x.(step := CheckingParent), x);
  }

  lemma RequestIsStamped(s: State, g: Guid, actor: Actor, target: nat, kind: Kind, parent: Option<Guid>, e: int, end: int)
    requires Earliest(end, {s.now + 28_800_000, e} + ParentEnd(s, parent))
    ensures
      var x := Create(actor, target, kind, parent, s.profile, s.epoch, Validating);
      Next(Requested(s, g, x), CreateValidatedStep(g, true, e)) == Requested(s, g, x.(step := Auditing(s.now, end)))
  {
    var x := Create(actor, target, kind, parent, s.profile, s.epoch, Validating);
    Overwritten(s.creates, g, x, x.(step := Auditing(s.now, end)));
    EndIs(s, parent, e, end);
    hide Earliest, ParentEnd;
  }

  lemma EndIs(s: State, parent: Option<Guid>, e: int, end: int)
    requires Earliest(end, {s.now + 28_800_000, e} + ParentEnd(s, parent))
    ensures
      var limit := if s.now + 28_800_000 < e then s.now + 28_800_000 else e;
      end == if parent.Some? && parent.value in s.sessions && s.sessions[parent.value].expiresAt < limit
        then s.sessions[parent.value].expiresAt else limit
  {
    var ends := {s.now + 28_800_000, e} + ParentEnd(s, parent);
    assert s.now + 28_800_000 in ends && e in ends;
    if parent.Some? && parent.value in s.sessions {
      assert s.sessions[parent.value].expiresAt in ends;
    }
  }

  lemma StampIsIssued(
      s: State, g: Guid, actor: Actor, target: nat, kind: Kind, parent: Option<Guid>, e: int, end: int, r: Hash, l: Hash, lifetime: int)
    requires MayAsk(s, g, actor, target, kind, parent, e) && r !in s.issued && l !in s.issued && r != l && s.now < end
    requires Earliest(lifetime, {s.now + 60_000, end}) && (parent.Some? ==> parent.value in s.sessions)
    ensures
      var x := Create(actor, target, kind, parent, s.profile, s.epoch, Auditing(s.now, end));
      Next(Requested(s, g, x), CreateAuditedStep(g, true, r, l)) ==
        WithSession(s, g, NewSession(s, actor, target, kind, parent, end, r, l), r, l, lifetime)
  {
    var x := Create(actor, target, kind, parent, s.profile, s.epoch, Auditing(s.now, end));
    LifetimeWas(s.now, end, lifetime);
    AskingIsQuiet(s, g, actor, target, kind, parent, e);
    hide MayAsk, Earliest, CreateAudited;
    IssuedIs(Requested(s, g, x), g, x, r, l, lifetime);
    assert s.creates[g := x] - {g} == s.creates;
  }

  lemma LifetimeWas(now: int, end: int, lifetime: int)
    requires Earliest(lifetime, {now + 60_000, end})
    ensures lifetime == if now + 60_000 < end then now + 60_000 else end
  {
    assert now + 60_000 in {now + 60_000, end} && end in {now + 60_000, end};
  }

  lemma AskingIsQuiet(s: State, g: Guid, actor: Actor, target: nat, kind: Kind, parent: Option<Guid>, e: int)
    requires MayAsk(s, g, actor, target, kind, parent, e)
    ensures g !in s.creates && !s.stopped && s.overdue == {}
  {
    hide SessionsOf, CreatesOf, Ready;
  }

  // ---- from the request to the traffic ----

  datatype Plan = Plan(
    g: Guid, actor: Actor, target: nat, kind: Kind, parent: Option<Guid>, e: int, r: Hash, l: Hash,
    c: ChannelId, d: ChannelId, request: Frame, uuid: Uuid, early: nat, late: nat)

  function OpenSteps(p: Plan): seq<Step> {
    RequestSteps(p.g, p.actor, p.target, p.kind, p.parent, p.e, p.r, p.l)
      + ([TickStep(p.early)] + (AttachSteps(p.c, p.r, p.e) + (RendezvousSteps(p.c, p.request, p.uuid, p.e)
      + ([TickStep(p.late)] + (AttachSteps(p.d, p.l, p.e) + RelaySteps(p.d, Some(p.uuid), p.e))))))
  }

  /** Names that are new, a relay no live session has, and no more than a minute of waiting. */
  predicate Feasible(s: State, p: Plan) {
    && MayAsk(s, p.g, p.actor, p.target, p.kind, p.parent, p.e)
    && p.r !in s.issued && p.l !in s.issued && p.r != p.l && p.c !in s.channels && p.d !in s.channels && p.c != p.d
    && p.request.Request? && (forall h :: h in s.sessions ==> s.sessions[h].relay != Some(p.uuid))
    && p.early + p.late < 60_000 && s.now + p.early + p.late < p.e
    && (p.parent.Some? ==> p.parent.value in s.sessions && s.now + p.early + p.late < s.sessions[p.parent.value].expiresAt)
  }

  function RendezvousClaim(p: Plan): Claim {
    Claim(p.g, Rendezvous, None, p.r)
  }

  function RelayClaim(p: Plan): Claim {
    Claim(p.g, Relay, Some(p.uuid), p.l)
  }

  function Wait(s: State, ms: nat): State {
    s.(now := s.now + ms)
  }

  function IssuedState(s: State, p: Plan, end: int, lifetime: int): State {
    WithSession(s, p.g, NewSession(s, p.actor, p.target, p.kind, p.parent, end, p.r, p.l), p.r, p.l, lifetime)
  }

  /** Before each of its two channels connects, the session may be used and the channel's ticket waits for it. */
  predicate Connectable(s: State, g: Guid, h: Hash, phase: Phase, c: ChannelId, e: int) {
    && Ready(s, g, e) && |s.sessions[g].sockets| < 2 && h in s.tickets && s.tickets[h].session == g && s.tickets[h].phase == phase
    && s.now < s.tickets[h].expiresAt && c !in s.channels && (phase == Relay ==> s.sessions[g].relay.Some?)
  }

  lemma IssuedIsConnectable(s: State, p: Plan, end: int, lifetime: int)
    requires Feasible(s, p) && p.g !in s.sessions
    requires Earliest(end, {s.now + 28_800_000, p.e} + ParentEnd(s, p.parent)) && Earliest(lifetime, {s.now + 60_000, end})
    ensures
      var s2 := Wait(IssuedState(s, p, end, lifetime), p.early);
      && Connectable(s2, p.g, p.r, Rendezvous, p.c, p.e)
      && s2.sessions[p.g].relay.None? && forall h :: h in s2.sessions ==> s2.sessions[h].relay != Some(p.uuid)
  {
    hide SessionsOf, CreatesOf;
    EndIsLate(s, p, end, lifetime);
  }

  lemma EndIsLate(s: State, p: Plan, end: int, lifetime: int)
    requires Feasible(s, p)
    requires Earliest(end, {s.now + 28_800_000, p.e} + ParentEnd(s, p.parent)) && Earliest(lifetime, {s.now + 60_000, end})
    ensures s.now + p.early + p.late < lifetime <= end <= p.e
    ensures p.kind == File ==> p.parent.Some? && p.parent.value in s.sessions && end <= s.sessions[p.parent.value].expiresAt
  {
    hide SessionsOf, CreatesOf;
    assert p.e in {s.now + 28_800_000, p.e} + ParentEnd(s, p.parent);
    assert end in {s.now + 60_000, end};
    if p.kind == File {
      assert s.sessions[p.parent.value].expiresAt in {s.now + 28_800_000, p.e} + ParentEnd(s, p.parent);
    }
  }

  /** What is left of the plan once the rendezvous channel has its claim, with the relay channel to come. */
  lemma AttachedIsReady(s: State, g: Guid, h: Hash, phase: Phase, c: ChannelId, e: int)
    requires Connectable(s, g, h, phase, c, e)
    ensures
      var s' := WithChannel(s, g, h, c);
      && Run(s, AttachSteps(c, h, e)) == s'
      && Ready(s', g, e) && s'.sessions[g] == s.sessions[g].(sockets := s.sessions[g].sockets + {c})
      && c in s'.channels && s'.channels[c] == AttachedChannel(Claim(g, phase, s.sessions[g].relay, h))
  {
    hide Run, AttachSteps, Ready;
    ReadyIsLive(s, g, e);
    TicketAttaches(s, g, h, c, e);
    SocketsLeaveReady(s, g, h, c, e);
  }

  lemma SocketsLeaveReady(s: State, g: Guid, h: Hash, c: ChannelId, e: int)
    requires Ready(s, g, e) && h in s.tickets
    ensures Ready(WithChannel(s, g, h, c), g, e)
  {
  }

  /** The first half: the rendezvous binds the relay. */
  lemma FirstHalf(s: State, p: Plan, end: int, lifetime: int)
    requires Feasible(s, p) && p.g !in s.sessions
    requires Earliest(end, {s.now + 28_800_000, p.e} + ParentEnd(s, p.parent)) && Earliest(lifetime, {s.now + 60_000, end})
    ensures
      var s2 := Wait(IssuedState(s, p, end, lifetime), p.early);
      && p.g in s2.sessions && p.r in s2.tickets
      && var s3 := WithChannel(s2, p.g, p.r, p.c);
         Run(s2, AttachSteps(p.c, p.r, p.e) + RendezvousSteps(p.c, p.request, p.uuid, p.e))
           == WithRelay(s3, p.g, p.uuid, p.c, RendezvousClaim(p), p.request)
  {
    hide Run, AttachSteps, RendezvousSteps, IssuedState, WithRelay, Feasible;
    var s2 := Wait(IssuedState(s, p, end, lifetime), p.early);
    IssuedIsConnectable(s, p, end, lifetime);
    PlanAsks(s, p);
    hide Wait;
    ReadyIsLive(s2, p.g, p.e);
    AttachedIsReady(s2, p.g, p.r, Rendezvous, p.c, p.e);
    RendezvousBinds(WithChannel(s2, p.g, p.r, p.c), p.g, p.c, RendezvousClaim(p), p.request, p.uuid, p.e);
    RunOn(s2, AttachSteps(p.c, p.r, p.e), RendezvousSteps(p.c, p.request, p.uuid, p.e));
  }

  lemma PlanAsks(s: State, p: Plan)
    requires Feasible(s, p)
    ensures p.request.Request?
  {
  }

  function BoundState(s: State, p: Plan, end: int, lifetime: int): State {
    var x := NewSession(s, p.actor, p.target, p.kind, p.parent, end, p.r, p.l).(sockets := {p.c}, relay := Some(p.uuid));
    s.(now := s.now + p.early, used := s.used + {p.g}, issued := s.issued + {p.r, p.l}, redeemed := s.redeemed + {p.r},
       sessions := s.sessions[p.g := x], tickets := s.tickets[p.l := Ticket(p.g, Relay, lifetime)],
       bound := s.bound[p.g := p.uuid], boundBy := s.boundBy[p.g := p.c],
       channels := s.channels[p.c := RepliedChannel(RendezvousClaim(p), p.request)])
  }

  lemma FirstHalfIs(s: State, p: Plan, end: int, lifetime: int)
    requires p.r !in s.tickets && p.r != p.l
    ensures
      var s2 := Wait(IssuedState(s, p, end, lifetime), p.early);
      && p.g in s2.sessions && p.r in s2.tickets
      && WithRelay(WithChannel(s2, p.g, p.r, p.c), p.g, p.uuid, p.c, RendezvousClaim(p), p.request) == BoundState(s, p, end, lifetime)
  {
    var s2 := Wait(IssuedState(s, p, end, lifetime), p.early);
    var x := s2.sessions[p.g];
    Overwritten(s.sessions, p.g, x, x.(sockets := {p.c}));
    Overwritten(s.sessions, p.g, x.(sockets := {p.c}), x.(sockets := {p.c}, relay := Some(p.uuid)));
    Overwritten(s.channels, p.c, AttachedChannel(RendezvousClaim(p)), RepliedChannel(RendezvousClaim(p), p.request));
    assert x.sockets + {p.c} == {p.c};
    assert s2.tickets - {p.r} == s.tickets[p.l := Ticket(p.g, Relay, lifetime)];
  }

  lemma BoundIsConnectable(s: State, p: Plan, end: int, lifetime: int)
    requires Feasible(s, p) && p.g !in s.sessions && p.r !in s.tickets
    requires Earliest(end, {s.now + 28_800_000, p.e} + ParentEnd(s, p.parent)) && Earliest(lifetime, {s.now + 60_000, end})
    ensures
      var s5 := Wait(BoundState(s, p, end, lifetime), p.late);
      Connectable(s5, p.g, p.l, Relay, p.d, p.e) && s5.sessions[p.g].relay == Some(p.uuid) && !s5.sessions[p.g].active
  {
    EndIsLate(s, p, end, lifetime);
    PlanIsUndisturbed(s, p);
    hide Feasible, Earliest, ParentEnd;
    assert |{p.c}| == 1;
    BoundIsReady(s, p, end, lifetime);
    hide Ready;
  }

  lemma BoundIsReady(s: State, p: Plan, end: int, lifetime: int)
    requires !s.stopped && !s.destroyed && s.now + p.early + p.late < lifetime <= end <= p.e && p.early + p.late < 60_000
    requires p.kind == Desktop ==> p.parent.None?
    requires p.kind == File ==>
      && p.parent.Some? && p.parent.value in s.sessions && p.parent.value != p.g
      && var x := s.sessions[p.parent.value];
         x.active && x.actor == p.actor && s.now + p.early + p.late < x.expiresAt
    ensures Ready(Wait(BoundState(s, p, end, lifetime), p.late), p.g, p.e)
  {
  }

  /** What the plan still needs of the state once its request is in. */
  lemma PlanIsUndisturbed(s: State, p: Plan)
    requires Feasible(s, p) && p.g !in s.sessions
    ensures !s.stopped && !s.destroyed && p.d !in s.channels && p.c != p.d && p.early + p.late < 60_000
    ensures p.kind == Desktop ==> p.parent.None?
    ensures p.kind == File ==>
      && p.parent.Some? && p.parent.value in s.sessions && p.parent.value != p.g
      && var x := s.sessions[p.parent.value];
         x.active && x.actor == p.actor && s.now + p.early + p.late < x.expiresAt
  {
    hide SessionsOf, CreatesOf;
  }

  /** The second half: the relay carries traffic. */
  lemma SecondHalf(s: State, p: Plan, end: int, lifetime: int)
    requires Feasible(s, p) && p.g !in s.sessions && p.r !in s.tickets
    requires Earliest(end, {s.now + 28_800_000, p.e} + ParentEnd(s, p.parent)) && Earliest(lifetime, {s.now + 60_000, end})
    ensures
      var s5 := Wait(BoundState(s, p, end, lifetime), p.late);
      && p.g in s5.sessions && p.l in s5.tickets
      && Run(s5, AttachSteps(p.d, p.l, p.e) + RelaySteps(p.d, Some(p.uuid), p.e))
           == WithTraffic(WithChannel(s5, p.g, p.l, p.d), p.g, p.d, RelayClaim(p))
  {
    hide Run, AttachSteps, RelaySteps, BoundState, WithTraffic, Feasible;
    var s5 := Wait(BoundState(s, p, end, lifetime), p.late);
    BoundIsConnectable(s, p, end, lifetime);
    hide Wait;
    ReadyIsLive(s5, p.g, p.e);
    AttachedIsReady(s5, p.g, p.l, Relay, p.d, p.e);
    RelayCarries(WithChannel(s5, p.g, p.l, p.d), p.g, p.d, RelayClaim(p), p.e);
    RunOn(s5, AttachSteps(p.d, p.l, p.e), RelaySteps(p.d, Some(p.uuid), p.e));
  }

  /** The session is open on two channels, both tickets are spent, and nothing else is different. */
  function OpenState(s: State, p: Plan, end: int): State {
    var x := Session(p.actor, p.target, p.kind, p.parent, s.now, end, s.profile, s.epoch, Some(p.uuid), true, {p.r, p.l}, {p.c, p.d});
    s.(now := s.now + p.early + p.late, used := s.used + {p.g},
       issued := s.issued + {p.r, p.l}, redeemed := s.redeemed + {p.r} + {p.l}, audited := s.audited + {p.g},
       sessions := s.sessions[p.g := x], bound := s.bound[p.g := p.uuid], boundBy := s.boundBy[p.g := p.c],
       channels := s.channels[p.c := RepliedChannel(RendezvousClaim(p), p.request)]
                             [p.d := RelayedChannel(RelayClaim(p), Request(Some(p.uuid)))])
  }

  lemma SecondHalfIs(s: State, p: Plan, end: int, lifetime: int)
    requires p.l !in s.tickets
    ensures
      var s5 := Wait(BoundState(s, p, end, lifetime), p.late);
      && p.g in s5.sessions && p.l in s5.tickets
      && WithTraffic(WithChannel(s5, p.g, p.l, p.d), p.g, p.d, RelayClaim(p)) == OpenState(s, p, end)
  {
    var s5 := Wait(BoundState(s, p, end, lifetime), p.late);
    var x := s5.sessions[p.g];
    Overwritten(s.sessions, p.g, x, x.(sockets := {p.c, p.d}));
    Overwritten(s.sessions, p.g, x.(sockets := {p.c, p.d}), x.(sockets := {p.c, p.d}, active := true));
    Overwritten(s5.channels, p.d, AttachedChannel(RelayClaim(p)), RelayedChannel(RelayClaim(p), Request(Some(p.uuid))));
    assert x.sockets + {p.d} == {p.c, p.d};
    assert s5.tickets - {p.l} == s.tickets;
  }

  lemma Waits(s: State, ms: nat, more: seq<Step>)
    ensures Run(s, [TickStep(ms)] + more) == Run(Wait(s, ms), more)
  {
    hide Run;
    RunTwo(s, Wait(s, ms), Run(Wait(s, ms), more), TickStep(ms), more);
  }

  lemma FeasibleIsNew(s: State, p: Plan)
    requires Inv(s) && Feasible(s, p)
    ensures p.g !in s.sessions && p.r !in s.tickets && p.l !in s.tickets && p.r != p.l
  {
    hide ChannelsInv, QuotaOk, QuietOk, ParentsOk, RelaysOk, MayAsk;
    assert p.g !in s.used by { AskingIsNew(s, p); }
  }

  lemma AskingIsNew(s: State, p: Plan)
    requires Feasible(s, p)
    ensures p.g !in s.used
  {
    hide SessionsOf, CreatesOf;
  }

  /** At any point of any run, a request that meets every condition becomes a session, in the given steps: its
      tickets attach two channels, the rendezvous forwards one request and one reply and binds the relay, and
      the relay channel opens with that relay and carries frames both ways.  All else stays as it was. */
  lemma SessionsOpen(steps: seq<Step>, p: Plan) returns (end: int)
    requires Feasible(After(steps), p)
    ensures After(steps + OpenSteps(p)) == OpenState(After(steps), p, end)
    ensures Earliest(end, {After(steps).now + 28_800_000, p.e} + ParentEnd(After(steps), p.parent))
  {
    hide After, Run, Inv, Feasible, RequestSteps, AttachSteps, RendezvousSteps, RelaySteps, OpenState, BoundState, IssuedState, Wait;
    hide WithTraffic, WithChannel, WithRelay;
    var s := After(steps);
    EveryRunKeepsInv(steps);
    FeasibleIsNew(s, p);
    var lifetime;
    end, lifetime := PlanIsIssued(s, p);
    FirstHalf(s, p, end, lifetime);
    FirstHalfIs(s, p, end, lifetime);
    SecondHalf(s, p, end, lifetime);
    SecondHalfIs(s, p, end, lifetime);
    var second := AttachSteps(p.d, p.l, p.e) + RelaySteps(p.d, Some(p.uuid), p.e);
    var first := AttachSteps(p.c, p.r, p.e) + RendezvousSteps(p.c, p.request, p.uuid, p.e);
    var asking := RequestSteps(p.g, p.actor, p.target, p.kind, p.parent, p.e, p.r, p.l);
    var s1, s4 := IssuedState(s, p, end, lifetime), BoundState(s, p, end, lifetime);
    Waits(s4, p.late, second);
    RunOn(Wait(s1, p.early), first, [TickStep(p.late)] + second);
    Waits(s1, p.early, first + ([TickStep(p.late)] + second));
    RunOn(s, asking, [TickStep(p.early)] + (first + ([TickStep(p.late)] + second)));
    StepsRegroup(p);
    RunIsAfter(steps, OpenSteps(p));
  }

  lemma PlanIsIssued(s: State, p: Plan) returns (end: int, lifetime: int)
    requires Feasible(s, p)
    ensures Earliest(end, {s.now + 28_800_000, p.e} + ParentEnd(s, p.parent)) && Earliest(lifetime, {s.now + 60_000, end})
    ensures Run(s, RequestSteps(p.g, p.actor, p.target, p.kind, p.parent, p.e, p.r, p.l)) == IssuedState(s, p, end, lifetime)
  {
    hide Run, RequestSteps, MayAsk, WithSession, NewSession, Earliest, ParentEnd;
    end, lifetime := RequestIsIssued(s, p.g, p.actor, p.target, p.kind, p.parent, p.e, p.r, p.l);
  }

  lemma StepsRegroup(p: Plan)
    ensures OpenSteps(p) ==
      RequestSteps(p.g, p.actor, p.target, p.kind, p.parent, p.e, p.r, p.l)
        + ([TickStep(p.early)] + ((AttachSteps(p.c, p.r, p.e) + RendezvousSteps(p.c, p.request, p.uuid, p.e))
        + ([TickStep(p.late)] + (AttachSteps(p.d, p.l, p.e) + RelaySteps(p.d, Some(p.uuid), p.e)))))
  {
    hide RequestSteps, AttachSteps, RendezvousSteps, RelaySteps;
    Regroup(AttachSteps(p.c, p.r, p.e), RendezvousSteps(p.c, p.request, p.uuid, p.e),
            [TickStep(p.late)] + (AttachSteps(p.d, p.l, p.e) + RelaySteps(p.d, Some(p.uuid), p.e)));
  }

  lemma Regroup(a: seq<Step>, b: seq<Step>, c: seq<Step>)
    ensures a + (b + c) == (a + b) + c
  {
  }
}
