/** The changes every step of the web client's services is made of, and that they keep the invariant. */
module WebClientSteps {
  import opened WebClientState
  import opened WebClientInvariant
  import opened Wrappers

  lemma GrownLooksOk(p: Past, p': Past, ch: Channel)
    requires LooksOk(p, ch) && Grows(p, p')
    ensures LooksOk(p', ch)
  {
  }

  // ---- changes of sessions ----

  /** Channels only care which sessions are live, who is attached to them, and what is past. */
  lemma ChannelsUntouched(s: State, s': State)
    requires ChannelsInv(s) && s'.channels == s.channels
    requires s'.sessions.Keys == s.sessions.Keys
    requires forall g :: g in s.sessions ==> s'.sessions[g].sockets == s.sessions[g].sockets
    requires s'.bound == s.bound && s'.boundBy == s.boundBy && s.audited <= s'.audited && s.redeemed <= s'.redeemed
    ensures ChannelsInv(s')
  {
    hide LooksOk;
    forall c | c in s'.channels ensures LooksOk(PastOf(s'), s'.channels[c]) {
      GrownLooksOk(PastOf(s), PastOf(s'), s.channels[c]);
    }
    forall c | c in s'.channels && Attached(s'.channels[c]) ensures Registered(s', c) {
      assert Registered(s, c);
    }
  }

  lemma ChangedSessionIsSame(s: State, g: Guid, x': Session)
    requires RelaysOk(s) && g in s.sessions && SameSession(s.sessions[g], x')
    requires x'.active ==> g in s.audited
    ensures SameSessions(s, s.(sessions := s.sessions[g := x']))
  {
  }

  lemma SessionChangeKeepsInv(s: State, g: Guid, x': Session)
    requires Inv(s) && g in s.sessions && SameSession(s.sessions[g], x') && x'.sockets == s.sessions[g].sockets
    requires x'.active ==> g in s.audited
    ensures Inv(s.(sessions := s.sessions[g := x']))
  {
    hide GuidsOk, QuietOk, QuotaOk, TicketsOk, ParentsOk, RelaysOk, ChannelsInv, SameSessions;
    var s' := s.(sessions := s.sessions[g := x']);
    ChangedSessionIsSame(s, g, x');
    SameSessionsKeepInv(s, s');
    ChannelsUntouched(s, s');
  }

  // ---- changes of one channel ----

  /** `ch'` may take the place of channel `ch` as far as its session is concerned. */
  predicate SameChannel(ch: Channel, ch': Channel) {
    && (ch.claim.Some? ==> ch'.claim == ch.claim)
    && (ch.replied ==> ch'.replied)
    && ch'.stopped == ch.stopped
    && (Attached(ch') ==> Attached(ch))
  }

  predicate SameTicket(ch: Channel, ch': Channel) {
    TicketOf(ch') == TicketOf(ch) || TicketOf(ch').None?
  }

  lemma SessionFieldsAreSame(s: State, s': State)
    requires RelaysOk(s)
    requires s'.sessions == s.sessions && s'.creates == s.creates && s'.tickets == s.tickets
    requires s'.used == s.used && s'.ended == s.ended && s'.issued == s.issued && s'.redeemed == s.redeemed
    requires s'.bound == s.bound && s.audited <= s'.audited
    requires s'.epoch == s.epoch && s'.stopped == s.stopped && s'.overdue == s.overdue
    ensures SameSessions(s, s')
  {
  }

  lemma ChannelChangeKeepsSockets(s: State, c: ChannelId, ch': Channel)
    requires SocketsOk(s) && BoundOk(s) && AttachedOk(s) && c in s.channels && SameChannel(s.channels[c], ch')
    ensures SocketsOk(SetChannel(s, c, ch')) && BoundOk(SetChannel(s, c, ch')) && AttachedOk(SetChannel(s, c, ch'))
  {
  }

  lemma ChannelChangeKeepsTicketUse(s: State, c: ChannelId, ch': Channel)
    requires TicketUseOk(s) && c in s.channels && SameTicket(s.channels[c], ch')
    ensures TicketUseOk(SetChannel(s, c, ch'))
  {
  }

  /** The invariant, but for the looks of channel `c`, which would do if the channel were stopped. */
  ghost predicate InvButFor(s: State, c: ChannelId) {
    && SessionsInv(s) && AttachedOk(s) && SocketsOk(s) && TicketUseOk(s) && BoundOk(s)
    && c in s.channels && LooksOk(PastOf(s), s.channels[c].(stopped := true))
    && forall d :: d in s.channels && d != c ==> LooksOk(PastOf(s), s.channels[d])
  }

  lemma InvHasInvButFor(s: State, c: ChannelId)
    requires Inv(s) && c in s.channels
    ensures InvButFor(s, c) && LooksOk(PastOf(s), s.channels[c])
  {
    hide LooksOk;
    StoppedLooksOk(PastOf(s), s.channels[c]);
  }

  lemma InvButForNothing(s: State, c: ChannelId)
    requires InvButFor(s, c) && LooksOk(PastOf(s), s.channels[c])
    ensures Inv(s)
  {
  }

  lemma ChannelChangeKeepsRest(s: State, c: ChannelId, ch': Channel)
    requires Inv(s) && c in s.channels && SameChannel(s.channels[c], ch')
    requires TicketUseOk(SetChannel(s, c, ch')) && LooksOk(PastOf(s), ch'.(stopped := true))
    ensures InvButFor(SetChannel(s, c, ch'), c)
  {
    hide SessionsInv, SocketsOk, TicketUseOk, BoundOk, AttachedOk, LooksOk, SameChannel;
    var s' := SetChannel(s, c, ch');
    SessionsUntouched(s, s');
    ChannelChangeKeepsSockets(s, c, ch');
  }

  lemma SessionsUntouched(s: State, s': State)
    requires SessionsInv(s) && s' == s.(channels := s'.channels)
    ensures SessionsInv(s')
  {
    hide GuidsOk, QuietOk, QuotaOk, TicketsOk, ParentsOk, SameSessions;
    SessionFieldsAreSame(s, s');
    SameSessionsKeepInv(s, s');
  }

  /** The workhorse: a channel goes from one good state to another. */
  lemma ChannelChangeKeepsInv(s: State, c: ChannelId, ch': Channel)
    requires Inv(s) && c in s.channels && SameChannel(s.channels[c], ch') && SameTicket(s.channels[c], ch')
    requires LooksOk(PastOf(s), ch')
    ensures Inv(SetChannel(s, c, ch'))
  {
    hide Inv, InvButFor, LooksOk, SameChannel, SameTicket, TicketUseOk;
    TicketUseHolds(s);
    ChannelChangeKeepsTicketUse(s, c, ch');
    StoppedLooksOk(PastOf(s), ch');
    ChannelChangeKeepsRest(s, c, ch');
    InvButForNothing(SetChannel(s, c, ch'), c);
  }

  lemma TicketUseHolds(s: State)
    requires Inv(s)
    ensures TicketUseOk(s)
  {
  }

  // ---- stopping a channel ----

  function Detached(s: State, c: ChannelId): State
    requires c in s.channels
  {
    var s1 := s.(channels := s.channels[c := s.channels[c].(stopped := true)]);
    if s.channels[c].claim.Some? then Detach(s1, s.channels[c].claim.value.session, c) else s1
  }

  /** The channel is stopped and out of its session's sockets; nothing else changed. */
  predicate IsDetached(s: State, c: ChannelId, s2: State)
    requires c in s.channels
  {
    && s2.sessions.Keys == s.sessions.Keys
    && (forall g :: g in s.sessions ==>
          s2.sessions[g] == if s.channels[c].claim.Some? && s.channels[c].claim.value.session == g
            then s.sessions[g].(sockets := s.sessions[g].sockets - {c}) else s.sessions[g])
    && s2.channels == s.channels[c := s.channels[c].(stopped := true)]
    && s2 == s.(sessions := s2.sessions, channels := s2.channels)
  }

  lemma DetachedIsDetached(s: State, c: ChannelId)
    requires c in s.channels
    ensures IsDetached(s, c, Detached(s, c))
  {
  }

  lemma DetachedIsSame(s: State, c: ChannelId, s2: State)
    requires c in s.channels && RelaysOk(s) && IsDetached(s, c, s2)
    ensures SameSessions(s, s2)
  {
  }

  lemma DetachedKeepsAttached(s: State, c: ChannelId, s2: State)
    requires c in s.channels && AttachedOk(s) && IsDetached(s, c, s2)
    ensures AttachedOk(s2)
  {
  }

  lemma DetachedKeepsSockets(s: State, c: ChannelId, s2: State)
    requires c in s.channels && SocketsOk(s) && IsDetached(s, c, s2)
    ensures SocketsOk(s2)
  {
  }

  lemma StoppedKeepsTicketUse(s: State, c: ChannelId, s2: State)
    requires c in s.channels && TicketUseOk(s) && BoundOk(s)
    requires s2.channels == s.channels[c := s.channels[c].(stopped := true)]
    requires s2.redeemed == s.redeemed && s2.bound == s.bound && s2.boundBy == s.boundBy
    ensures TicketUseOk(s2) && BoundOk(s2)
  {
  }

  lemma DetachedKeepsLooks(s: State, c: ChannelId, s2: State)
    requires InvButFor(s, c) && IsDetached(s, c, s2)
    ensures AllLookOk(s2)
  {
  }

  lemma DetachedKeepsInv(s: State, c: ChannelId)
    requires InvButFor(s, c)
    ensures Inv(Detached(s, c))
  {
    hide GuidsOk, QuietOk, QuotaOk, TicketsOk, ParentsOk, RelaysOk, SocketsOk, TicketUseOk, BoundOk, SameSessions;
    hide AttachedOk, AllLookOk, LooksOk, Detached;
    var s2 := Detached(s, c);
    DetachedIsDetached(s, c);
    DetachedIsSame(s, c, s2);
    SameSessionsKeepInv(s, s2);
    DetachedKeepsLooks(s, c, s2);
    DetachedKeepsAttached(s, c, s2);
    DetachedKeepsSockets(s, c, s2);
    StoppedKeepsTicketUse(s, c, s2);
  }

  /** Stopping takes the channel out of its session, whatever state a failed send left it in. */
  lemma StopRepairsInv(s: State, c: ChannelId, retain: bool)
    requires InvButFor(s, c) && !s.channels[c].stopped
    ensures Inv(Stop(s, c, retain))
  {
    DetachedKeepsInv(s, c);
    hide Inv, InvButFor, CloseGrant;
    if s.channels[c].claim.Some? && !retain {
      CloseGrantKeepsInv(Detached(s, c), s.channels[c].claim.value.session);
    }
  }

  lemma StopKeepsInv(s: State, c: ChannelId, retain: bool)
    requires Inv(s)
    ensures Inv(Stop(s, c, retain))
  {
    hide Inv, InvButFor, CloseGrant;
    if c in s.channels && !s.channels[c].stopped {
      InvHasInvButFor(s, c);
      StopRepairsInv(s, c, retain);
    }
  }

  // ---- checking a session again ----

  /** What ending sessions does to the rest of the state. */
  predicate Ended(s: State, s': State) {
    && s'.creates == s.creates && PastOf(s') == PastOf(s)
    && s'.channels.Keys == s.channels.Keys
    && (forall c :: c in s.channels ==>
          s'.channels[c] == s.channels[c] || s'.channels[c] == s.channels[c].(stopped := true))
  }

  lemma CloseGrantEnds(s: State, g: Guid)
    ensures Ended(s, CloseGrant(s, g))
  {
  }

  lemma RecheckKeepsInv(s: State, g: Guid, allowed: bool, loginExpiry: int)
    requires Inv(s)
    ensures var (s', ok) := Recheck(s, g, allowed, loginExpiry);
      Inv(s') && Ended(s, s') && (ok ==> Current(s', g) && s'.channels == s.channels)
  {
    hide GuidsOk, QuietOk, QuotaOk, TicketsOk, ParentsOk, RelaysOk, ChannelsInv, SameSessions;
    hide CloseGrant, ParentAllows, Ended;
    if !allowed || !Current(s, g) {
      CloseGrantKeepsInv(s, g);
      CloseGrantEnds(s, g);
    } else {
      var x := s.sessions[g];
      var s' := s.(sessions := s.sessions[g := x.(expiresAt := if loginExpiry < x.expiresAt then loginExpiry else x.expiresAt)]);
      ActiveIsAudited(s, g);
      SessionChangeKeepsInv(s, g, s'.sessions[g]);
      CloseGrantKeepsInv(s', g);
      CloseGrantEnds(s', g);
      EndedIgnoresSessions(s, s', CloseGrant(s', g));
    }
  }

  lemma ActiveIsAudited(s: State, g: Guid)
    requires RelaysOk(s) && g in s.sessions
    ensures s.sessions[g].active ==> g in s.audited
  {
  }

  lemma EndedIgnoresSessions(s: State, s1: State, s2: State)
    requires s1 == s.(sessions := s1.sessions)
    ensures Ended(s, s1) && (Ended(s1, s2) ==> Ended(s, s2))
  {
  }
}
