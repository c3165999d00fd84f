/** Requesting and issuing sessions keeps the invariant. */
module WebClientCreation {
  import opened FiniteSets
  import opened WebClientState
  import opened WebClientInvariant
  import opened WebClientSteps
  import opened Wrappers

  /** Only requests changed. */
  ghost predicate OnlyCreates(s: State, s': State) {
    s' == s.(creates := s'.creates, used := s'.used)
  }

  lemma RequestsLeaveChannels(s: State, s': State)
    requires ChannelsInv(s) && OnlyCreates(s, s')
    ensures ChannelsInv(s')
  {
  }

  lemma RequestsLeaveRelays(s: State, s': State)
    requires TicketsOk(s) && RelaysOk(s) && OnlyCreates(s, s')
    ensures TicketsOk(s') && RelaysOk(s')
  {
  }

  lemma CreatesKeepQuota(s: State, s': State, g: Guid, x: Create)
    requires QuotaOk(s) && s'.sessions == s.sessions && g !in s.creates && MayReserve(s, x.actor.id)
    requires s'.creates == s.creates[g := x]
    ensures QuotaOk(s')
  {
    assert s'.creates.Keys == s.creates.Keys + {g};
    forall b: nat ensures |SessionsOf(s', b)| + |CreatesOf(s', b)| <= MAX_PER_ACTOR {
      NewRequestOf(s, s', g, x, b);
    }
  }

  /** One more request counts for its own actor only. */
  lemma NewRequestOf(s: State, s': State, g: Guid, x: Create, b: nat)
    requires s'.sessions == s.sessions && g !in s.creates && s'.creates == s.creates[g := x]
    ensures SessionsOf(s', b) == SessionsOf(s, b)
    ensures |CreatesOf(s', b)| == |CreatesOf(s, b)| + if b == x.actor.id then 1 else 0
  {
    RequestsAndOne(s, s', g, x, b);
    hide CreatesOf;
  }

  lemma RequestsAndOne(s: State, s': State, g: Guid, x: Create, b: nat)
    requires g !in s.creates && s'.creates == s.creates[g := x]
    ensures CreatesOf(s', b) == CreatesOf(s, b) + if b == x.actor.id then {g} else {}
    ensures g !in CreatesOf(s, b)
  {
  }

  lemma BeginCreateKeepsInv(s: State, g: Guid, actor: Actor, target: nat, kind: Kind, parent: Option<Guid>)
    requires Inv(s)
    ensures Inv(BeginCreate(s, g, actor, target, kind, parent))
  {
    var s' := BeginCreate(s, g, actor, target, kind, parent);
    if s' != s {
      RequestsLeaveChannels(s, s');
      RequestsLeaveRelays(s, s');
      NewRequestIsOk(s, g, actor, target, kind, parent);
    }
  }

  lemma NewRequestIsOk(s: State, g: Guid, actor: Actor, target: nat, kind: Kind, parent: Option<Guid>)
    requires GuidsOk(s) && QuietOk(s) && QuotaOk(s) && ParentsOk(s)
    requires g !in s.used && !s.stopped && s.overdue == {} && MayReserve(s, actor.id)
    ensures var s' := BeginCreate(s, g, actor, target, kind, parent);
      GuidsOk(s') && QuietOk(s') && QuotaOk(s') && ParentsOk(s')
  {
    var s' := BeginCreate(s, g, actor, target, kind, parent);
    CreatesKeepQuota(s, s', g, s'.creates[g]);
    forall h | h in s'.creates ensures CreateOk(s', s'.creates[h]) {
      if h != g {
        assert CreateOk(s, s.creates[h]);
      }
    }
  }

  lemma SetStepKeepsInv(s: State, g: Guid, step: CreateStep)
    requires Inv(s) && g in s.creates && (s.creates[g].step == Denying ==> step == Denying)
    ensures Inv(SetStep(s, g, step))
  {
    var s' := SetStep(s, g, step);
    RequestsLeaveChannels(s, s');
    RequestsLeaveRelays(s, s');
    StepChangeIsOk(s, g, step);
  }

  lemma StepChangeIsOk(s: State, g: Guid, step: CreateStep)
    requires GuidsOk(s) && QuietOk(s) && QuotaOk(s) && ParentsOk(s)
    requires g in s.creates && (s.creates[g].step == Denying ==> step == Denying)
    ensures var s' := SetStep(s, g, step); GuidsOk(s') && QuietOk(s') && QuotaOk(s') && ParentsOk(s')
  {
    var s' := SetStep(s, g, step);
    assert s'.creates.Keys == s.creates.Keys;
    forall b: nat ensures |SessionsOf(s', b)| + |CreatesOf(s', b)| <= MAX_PER_ACTOR {
      assert SessionsOf(s', b) == SessionsOf(s, b) && CreatesOf(s', b) == CreatesOf(s, b);
    }
    forall h | h in s'.creates ensures CreateOk(s', s'.creates[h]) {
      assert CreateOk(s, s.creates[h]);
    }
  }

  lemma ParentCheckedKeepsInv(s: State, g: Guid, allowed: bool, loginExpiry: int)
    requires Inv(s)
    ensures Inv(ParentChecked(s, g, allowed, loginExpiry))
  {
    hide Inv, Recheck;
    if g in s.creates && s.creates[g].step == CheckingParent && s.creates[g].parent.Some? {
      RecheckKeepsInv(s, s.creates[g].parent.value, allowed, loginExpiry);
      var (s', ok) := Recheck(s, s.creates[g].parent.value, allowed, loginExpiry);
      SetStepKeepsInv(s', g, if ok then Validating else Denying);
    }
  }

  lemma CreateValidatedKeepsInv(s: State, g: Guid, allowed: bool, loginExpiry: int)
    requires Inv(s)
    ensures Inv(CreateValidated(s, g, allowed, loginExpiry))
  {
    hide Inv;
    var s' := CreateValidated(s, g, allowed, loginExpiry);
    if s' != s {
      SetStepKeepsInv(s, g, s'.creates[g].step);
    }
  }

  lemma CreateDeniedKeepsInv(s: State, g: Guid)
    requires Inv(s)
    ensures Inv(CreateDenied(s, g))
  {
    var s' := CreateDenied(s, g);
    if s' != s {
      RequestsLeaveChannels(s, s');
      RequestsLeaveRelays(s, s');
      DroppedRequestIsOk(s, g);
    }
  }

  lemma DroppedRequestIsOk(s: State, g: Guid)
    requires GuidsOk(s) && QuietOk(s) && QuotaOk(s) && ParentsOk(s) && g in s.creates
    ensures var s' := s.(creates := s.creates - {g}); GuidsOk(s') && QuietOk(s') && QuotaOk(s') && ParentsOk(s')
  {
    var s' := s.(creates := s.creates - {g});
    DroppedRequestKeepsQuota(s, s');
    forall h | h in s'.creates ensures CreateOk(s', s'.creates[h]) {
      assert CreateOk(s, s.creates[h]);
    }
  }

  lemma DroppedRequestKeepsQuota(s: State, s': State)
    requires QuotaOk(s) && s'.sessions == s.sessions && s'.creates.Keys <= s.creates.Keys
    requires forall h :: h in s'.creates ==> s'.creates[h] == s.creates[h]
    ensures QuotaOk(s')
  {
    Subset(s'.creates.Keys, s.creates.Keys);
    forall b: nat ensures |SessionsOf(s', b)| + |CreatesOf(s', b)| <= MAX_PER_ACTOR {
      assert SessionsOf(s', b) == SessionsOf(s, b);
      Subset(CreatesOf(s', b), CreatesOf(s, b));
    }
  }

  // ---- issuing ----

  ghost predicate Issues(s: State, s': State, g: Guid, rendezvous: Hash, relay: Hash) {
    && g in s.creates && !s.stopped && s.overdue == {} && s.creates[g].epoch == s.epoch && s.creates[g].step.Auditing?
    && (s.creates[g].parent.Some? ==> s.creates[g].parent.value in s.sessions)
    && rendezvous !in s.issued && relay !in s.issued && rendezvous != relay
    && s'.creates == s.creates - {g}
    && s'.sessions == s.sessions[g := FreshSession(s.creates[g], {rendezvous, relay})]
    && s'.tickets.Keys == s.tickets.Keys + {rendezvous, relay}
    && (forall h :: h in s.tickets ==> s'.tickets[h] == s.tickets[h])
    && s'.tickets[rendezvous].session == g && s'.tickets[relay].session == g
    && s'.issued == s.issued + {rendezvous, relay}
    && s' == s.(creates := s'.creates, sessions := s'.sessions, tickets := s'.tickets, issued := s'.issued)
  }

  /** The reservation becomes the session: no count changes. */
  lemma IssuingKeepsQuota(s: State, s': State, g: Guid, x: Session)
    requires QuotaOk(s) && g in s.creates && g !in s.sessions && x.actor == s.creates[g].actor
    requires s'.creates == s.creates - {g} && s'.sessions == s.sessions[g := x]
    ensures QuotaOk(s')
  {
    assert s'.sessions.Keys == s.sessions.Keys + {g} && s'.creates.Keys == s.creates.Keys - {g};
    forall b: nat ensures |SessionsOf(s', b)| + |CreatesOf(s', b)| <= MAX_PER_ACTOR {
      IssuedSessionOf(s, s', g, x, b);
    }
  }

  lemma IssuedSessionOf(s: State, s': State, g: Guid, x: Session, b: nat)
    requires g in s.creates && g !in s.sessions && x.actor == s.creates[g].actor
    requires s'.creates == s.creates - {g} && s'.sessions == s.sessions[g := x]
    ensures |SessionsOf(s', b)| + |CreatesOf(s', b)| == |SessionsOf(s, b)| + |CreatesOf(s, b)|
  {
    hide SessionsOf, CreatesOf;
    OneMoreSessionOf(s, s', g, x, b);
    OneFewerRequestOf(s, s', g, b);
  }

  lemma OneMoreSessionOf(s: State, s': State, g: Guid, x: Session, b: nat)
    requires g !in s.sessions && s'.sessions == s.sessions[g := x]
    ensures |SessionsOf(s', b)| == |SessionsOf(s, b)| + if b == x.actor.id then 1 else 0
  {
    SessionsAndOne(s, s', g, x, b);
    hide SessionsOf;
  }

  lemma SessionsAndOne(s: State, s': State, g: Guid, x: Session, b: nat)
    requires g !in s.sessions && s'.sessions == s.sessions[g := x]
    ensures SessionsOf(s', b) == SessionsOf(s, b) + if b == x.actor.id then {g} else {}
    ensures g !in SessionsOf(s, b)
  {
  }

  lemma OneFewerRequestOf(s: State, s': State, g: Guid, b: nat)
    requires g in s.creates && s'.creates == s.creates - {g}
    ensures |CreatesOf(s', b)| == |CreatesOf(s, b)| - if b == s.creates[g].actor.id then 1 else 0
  {
    RequestsButOne(s, s', g, b);
    hide CreatesOf;
  }

  lemma RequestsButOne(s: State, s': State, g: Guid, b: nat)
    requires s'.creates == s.creates - {g}
    ensures CreatesOf(s', b) == CreatesOf(s, b) - {g}
    ensures g in CreatesOf(s, b) <==> g in s.creates && s.creates[g].actor.id == b
  {
  }

  lemma IssuingKeepsQuiet(s: State, s': State, g: Guid, rendezvous: Hash, relay: Hash)
    requires GuidsOk(s) && QuietOk(s) && Issues(s, s', g, rendezvous, relay)
    ensures GuidsOk(s') && QuietOk(s')
  {
  }

  lemma IssuingKeepsTickets(s: State, s': State, g: Guid, rendezvous: Hash, relay: Hash)
    requires GuidsOk(s) && TicketsOk(s) && Issues(s, s', g, rendezvous, relay)
    ensures TicketsOk(s')
  {
  }

  lemma IssuingKeepsParents(s: State, s': State, g: Guid, rendezvous: Hash, relay: Hash)
    requires GuidsOk(s) && ParentsOk(s) && Issues(s, s', g, rendezvous, relay)
    ensures ParentsOk(s')
  {
  }

  lemma IssuingKeepsRelays(s: State, s': State, g: Guid, rendezvous: Hash, relay: Hash)
    requires GuidsOk(s) && RelaysOk(s) && Issues(s, s', g, rendezvous, relay)
    ensures RelaysOk(s')
  {
  }

  lemma IssuingKeepsChannels(s: State, s': State, g: Guid, rendezvous: Hash, relay: Hash)
    requires GuidsOk(s) && ChannelsInv(s) && Issues(s, s', g, rendezvous, relay)
    ensures ChannelsInv(s')
  {
    hide LooksOk;
    forall c | c in s'.channels && Attached(s'.channels[c]) ensures Registered(s', c) {
      assert Registered(s, c);
    }
  }

  /** What the service checks again once the permission audit is stored. */
  predicate MayIssue(s: State, x: Create, rendezvous: Hash, relay: Hash) {
    && x.step.Auditing? && rendezvous !in s.issued && relay !in s.issued && rendezvous != relay
    && !s.stopped && s.overdue == {} && x.epoch == s.epoch && x.profile == s.profile
    && s.now < x.step.expiresAt && (x.parent.Some? ==> x.parent.value in s.sessions)
  }

  lemma IssuedIs(s: State, g: Guid, x: Create, rendezvous: Hash, relay: Hash, lifetime: int)
    requires g in s.creates && s.creates[g] == x && MayIssue(s, x, rendezvous, relay)
    requires lifetime == if s.now + TICKET_MS < x.step.expiresAt then s.now + TICKET_MS else x.step.expiresAt
    ensures CreateAudited(s, g, true, rendezvous, relay) ==
      s.(creates := s.creates - {g}, sessions := s.sessions[g := FreshSession(x, {rendezvous, relay})],
         tickets := s.tickets[rendezvous := Ticket(g, Rendezvous, lifetime)][relay := Ticket(g, Relay, lifetime)],
         issued := s.issued + {rendezvous, relay})
  {
  }

  lemma CreateAuditedIssues(s: State, g: Guid, stored: bool, rendezvous: Hash, relay: Hash)
    requires g in s.creates && TicketsOk(s)
    ensures var s' := CreateAudited(s, g, stored, rendezvous, relay);
      s' == s || s' == SetStep(s, g, Denying) || Issues(s, s', g, rendezvous, relay)
  {
  }

  lemma IssuingKeepsInv(s: State, s': State, g: Guid, rendezvous: Hash, relay: Hash)
    requires Inv(s) && Issues(s, s', g, rendezvous, relay)
    ensures Inv(s')
  {
    hide QuietOk, QuotaOk, TicketsOk, ParentsOk, RelaysOk, ChannelsInv;
    assert g !in s.sessions;
    IssuingKeepsQuota(s, s', g, s'.sessions[g]);
    IssuingKeepsQuiet(s, s', g, rendezvous, relay);
    IssuingKeepsTickets(s, s', g, rendezvous, relay);
    IssuingKeepsParents(s, s', g, rendezvous, relay);
    IssuingKeepsRelays(s, s', g, rendezvous, relay);
    IssuingKeepsChannels(s, s', g, rendezvous, relay);
  }

  lemma CreateAuditedKeepsInv(s: State, g: Guid, stored: bool, rendezvous: Hash, relay: Hash)
    requires Inv(s)
    ensures Inv(CreateAudited(s, g, stored, rendezvous, relay))
  {
    hide GuidsOk, QuietOk, QuotaOk, ParentsOk, RelaysOk, ChannelsInv, Issues, SetStep;
    var s' := CreateAudited(s, g, stored, rendezvous, relay);
    if g in s.creates {
      hide CreateAudited, TicketsOk;
      CreateAuditedIssues(s, g, stored, rendezvous, relay);
      if s' == SetStep(s, g, Denying) {
        SetStepKeepsInv(s, g, Denying);
      } else if s' != s {
        IssuingKeepsInv(s, s', g, rendezvous, relay);
      }
    }
  }
}
